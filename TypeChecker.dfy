/** The VL type checker (src/vl/type_checker.py): two passes over a program, the first
    recording every top-level function signature, the second walking the statements with a
    symbol table that is saved and restored around each function body.

    The pure part (type resolution, inference, compatibility) is a set of functions of the
    expression and the tables. The walk itself is specified by state-transforming functions
    over `CheckerState`; the `Checker` class performs it step by step and is proved to
    produce exactly those states. */
module TypeChecker {
  import opened Wrappers
  import opened Strings
  import opened Ast
  import Errors

  /** `TypeInfo`; `element_type` is never set by the checker and is left out. */
  datatype TypeInfo = TypeInfo(name: string, isNumeric: bool, isCollection: bool)

  /** A function's recorded signature: its resolved input types and output type. */
  datatype Signature = Signature(inputs: seq<TypeInfo>, output: TypeInfo)

  const IntType := TypeInfo("int", true, false)
  const FloatType := TypeInfo("float", true, false)
  const StrType := TypeInfo("str", false, false)
  const BoolType := TypeInfo("bool", false, false)
  const ArrType := TypeInfo("arr", false, true)
  const ObjType := TypeInfo("obj", false, false)
  const AnyType := TypeInfo("any", false, false)
  const VoidType := TypeInfo("void", false, false)
  const FuncType := TypeInfo("func", false, false)

  const BuiltinNames: set<string> :=
    {"int", "float", "str", "bool", "arr", "obj", "any", "void", "promise", "func", "map", "set"}

  /** `BUILTIN_TYPES.get(name)`: int and float are numeric; arr, map and set are collections. */
  function BuiltinType(name: string): (r: Option<TypeInfo>)
    ensures r.Some? <==> name in BuiltinNames
    ensures r.Some? ==> r.value.name == name
  {
    if name == "int" || name == "float" then Some(TypeInfo(name, true, false))
    else if name == "arr" || name == "map" || name == "set" then Some(TypeInfo(name, false, true))
    else if name in BuiltinNames then Some(TypeInfo(name, false, false))
    else None
  }

  /** `TYPE_COMPATIBILITY.get(target)`: 'any' accepts every built-in name, 'float' accepts
      'int' and 'float', every other built-in accepts only itself. */
  function CompatibleSources(target: string): Option<set<string>> {
    if target == "any" then Some(BuiltinNames)
    else if target == "float" then Some({"int", "float"})
    else if target in BuiltinNames then Some({target})
    else None
  }

  /** `_resolve_type`: the lower-cased name's built-in type, or a plain type of that name. */
  function ResolveType(t: Type): (r: TypeInfo)
    ensures r.name == Lower(t.name)
  {
    var name := Lower(t.name);
    var builtin := BuiltinType(name);
    if builtin.Some? then builtin.value else TypeInfo(name, false, false)
  }

  /** `_types_compatible(target, source)`. */
  function TypesCompatible(target: TypeInfo, source: TypeInfo): bool {
    if target.name == "any" || source.name == "any" then true
    else if target.name == source.name then true
    else
      var allowed := CompatibleSources(target.name);
      allowed.Some? && source.name in allowed.value
  }

  /** Among built-in names, assignment is accepted exactly when the names agree, either side
      is 'any', or an int goes into a float. */
  lemma CompatibilityOnBuiltins(target: TypeInfo, source: TypeInfo)
    requires target.name in BuiltinNames && source.name in BuiltinNames
    ensures TypesCompatible(target, source) <==>
      target.name == source.name || target.name == "any" || source.name == "any"
      || (target.name == "float" && source.name == "int")
  {
  }

  /** A target the table does not know accepts only its own name and 'any'. */
  lemma UnknownTargetRejects(target: TypeInfo, source: TypeInfo)
    requires target.name !in BuiltinNames
    ensures TypesCompatible(target, source) <==> source.name == target.name || source.name == "any"
  {
  }

  // ----- Inference -----

  /** The digits after the '.' of a number lexeme (empty when there is none). */
  function Fraction(lexeme: string): string {
    if lexeme == [] then []
    else if lexeme[0] == '.' then lexeme[1..]
    else Fraction(lexeme[1..])
  }

  /** `_infer_number_type`: float only for a float whose value is not integral, i.e. whose
      fraction digits are not all zero. */
  function NumberType(v: Number): TypeInfo {
    match v
    case IntNum(_) => IntType
    case FloatNum(lexeme) =>
      if forall i :: 0 <= i < |Fraction(lexeme)| ==> Fraction(lexeme)[i] == '0' then IntType
      else FloatType
  }

  /** `NumberLiteral(1.0)` is an int and `NumberLiteral(1.5)` a float. */
  lemma IntegralFloatIsInt()
    ensures NumberType(FloatNum("1.0")) == IntType
    ensures NumberType(FloatNum("1.5")) == FloatType
  {
    assert Fraction("1.0") == "0";
    assert Fraction("1.5") == "5";
    assert Fraction("1.5")[0] != '0';
  }

  const Comparisons: set<string> := {"==", "!=", "<", ">", "<=", ">="}
  const Logicals: set<string> := {"and", "or", "&&", "||"}
  const Arithmetic: set<string> := {"+", "-", "*", "/", "%", "**"}

  /** `_infer_operation_type` once the operand types are known (`right` is the left type
      again for a single operand). */
  function OperationType(op: string, left: TypeInfo, right: TypeInfo): TypeInfo {
    if op in Comparisons || op in Logicals then BoolType
    else if op == "+" && (left.name == "str" || right.name == "str") then StrType
    else if op in Arithmetic && (left.name == "float" || right.name == "float") then FloatType
    else if op in Arithmetic && left.isNumeric && right.isNumeric then IntType
    else if op == "/" then FloatType
    else AnyType
  }

  /** The inference order: comparisons and logical operators give bool; `+` with a string
      side gives str; arithmetic with a float side gives float; arithmetic on two numeric
      sides gives int (so `/` on two ints is int); any other `/` gives float; every other
      operator gives any. */
  lemma OperationInferenceOrder(op: string, left: TypeInfo, right: TypeInfo)
    ensures op in Comparisons || op in Logicals ==> OperationType(op, left, right) == BoolType
    ensures op == "+" && (left.name == "str" || right.name == "str") ==>
      OperationType(op, left, right) == StrType
    ensures op in Arithmetic && left.name == "float" && right.name != "str" ==>
      OperationType(op, left, right) == FloatType
    ensures op == "/" && left == IntType && right == IntType ==> OperationType(op, left, right) == IntType
    ensures op == "/" && !left.isNumeric && left.name != "float" && right.name != "float" ==>
      OperationType(op, left, right) == FloatType
    ensures op !in Comparisons && op !in Logicals && op !in Arithmetic ==>
      OperationType(op, left, right) == AnyType
  {
  }

  /** The return types `_infer_call_type` knows for Python built-ins. */
  function BuiltinReturn(name: string): Option<TypeInfo> {
    if name in {"len", "int"} then Some(IntType)
    else if name in {"str", "input"} then Some(StrType)
    else if name in {"float", "abs", "sum"} then Some(FloatType)
    else if name == "bool" then Some(BoolType)
    else if name in {"list", "range"} then Some(ArrType)
    else if name == "dict" then Some(ObjType)
    else if name == "print" then Some(VoidType)
    else if name in {"min", "max"} then Some(AnyType)
    else None
  }

  /** `_infer_call_type`: the function table first, then the built-ins, else any. */
  function CallType(callee: Node, functions: map<string, Signature>): TypeInfo {
    if callee.Identifier? then
      if callee.name in functions then functions[callee.name].output
      else BuiltinReturn(callee.name).GetOr(AnyType)
    else AnyType
  }

  /** `_infer_type`. */
  function InferType(expr: Node, symbols: map<string, TypeInfo>, functions: map<string, Signature>): TypeInfo
    decreases expr
  {
    if expr.NumberLiteral? then NumberType(expr.number)
    else if expr.StringLiteral? then StrType
    else if expr.BooleanLiteral? then BoolType
    else if expr.Identifier? then (if expr.name in symbols then symbols[expr.name] else AnyType)
    else if expr.Operation? then
      if |expr.operands| == 0 then AnyType
      else
        var left := InferType(expr.operands[0], symbols, functions);
        var right := if |expr.operands| > 1 then InferType(expr.operands[1], symbols, functions) else left;
        OperationType(expr.operator, left, right)
    else if expr.FunctionCall? then CallType(expr.callee, functions)
    else if expr.ArrayLiteral? || expr.DataPipeline? || expr.RangeExpr? then ArrType
    else if expr.ObjectLiteral? then ObjType
    else if expr.FunctionExpr? then FuncType
    else AnyType
  }

  /** Dividing two int literals infers int, not float. */
  lemma IntDivisionIsInt(symbols: map<string, TypeInfo>, functions: map<string, Signature>)
    ensures InferType(Operation(1, 1, "/", [NumberLiteral(1, 1, IntNum(7)), NumberLiteral(1, 5, IntNum(2))]),
                      symbols, functions) == IntType
  {
  }

  // ----- The checker's walk, as state transformers -----

  datatype CheckerState = CheckerState(
    errors: seq<Errors.VLError>,
    symbols: map<string, TypeInfo>,
    functions: map<string, Signature>,
    currentFunction: Option<string>,
    currentReturnType: Option<TypeInfo>)

  /** The signature `_register_function` records for a definition. */
  function SignatureOf(f: Node): Signature
    requires f.FunctionDef?
  {
    Signature(seq(|f.inputTypes|, i requires 0 <= i < |f.inputTypes| => ResolveType(f.inputTypes[i])),
              ResolveType(f.outputType))
  }

  /** `_register_function`. */
  function Register(functions: map<string, Signature>, f: Node): map<string, Signature>
    requires f.FunctionDef?
  {
    functions[f.name := SignatureOf(f)]
  }

  /** Pass 1 over the first statements: every FunctionDef registered in order. */
  function Signatures(stmts: seq<Node>): map<string, Signature> {
    if stmts == [] then map[]
    else
      var before := Signatures(stmts[..|stmts| - 1]);
      var last := stmts[|stmts| - 1];
      if last.FunctionDef? then Register(before, last) else before
  }

  /** The parameter name of input `k`: "i0", "i1", ... */
  function ParamName(k: nat): string {
    "i" + NatToString(k)
  }

  /** The scope of a function body: the enclosing symbols with i0..iN-1 bound in order. */
  function BindParams(symbols: map<string, TypeInfo>, inputs: seq<Type>): map<string, TypeInfo> {
    if inputs == [] then symbols
    else BindParams(symbols, inputs[..|inputs| - 1])[ParamName(|inputs| - 1) := ResolveType(inputs[|inputs| - 1])]
  }

  /** `_add_error` (`_get_source_line` is the 1-based line of the source, or ""). */
  function AddError(st: CheckerState, source: string, message: string, line: int, column: int,
                    hints: seq<string>): CheckerState {
    var e := Errors.VLError(Errors.TypeError, message, Some(Errors.At(line, column)),
                            Errors.FormatErrorContext(source, line, column), hints);
    st.(errors := st.errors + [e])
  }

  function Quote(s: string): string { "'" + s + "'" }

  /** f-string rendering of an optional name (`None` when absent). */
  function OptionalName(name: Option<string>): string {
    if name.Some? then name.value else "None"
  }

  function MismatchMessage(name: string, declared: TypeInfo, value: TypeInfo): string {
    "Type mismatch: variable " + Quote(name) + " declared as " + Quote(declared.name)
    + " but assigned value of type " + Quote(value.name)
  }

  /** `_check_variable_def`. */
  function CheckVariableDef(st: CheckerState, v: Node, source: string): CheckerState
    requires v.VariableDef?
  {
    var valueType := InferType(v.value, st.symbols, st.functions);
    if v.typeAnnotation.Some? then
      var declared := ResolveType(v.typeAnnotation.value);
      var st' :=
        if !TypesCompatible(declared, valueType) then
          AddError(st, source, MismatchMessage(v.name, declared, valueType), v.line, v.column,
                   ["Change the type annotation to " + Quote(valueType.name),
                    "Or convert the value to type " + Quote(declared.name)])
        else st;
      st'.(symbols := st'.symbols[v.name := declared])
    else st.(symbols := st.symbols[v.name := valueType])
  }

  /** `_check_return`: ignored outside a function. */
  function CheckReturn(st: CheckerState, r: Node, source: string): CheckerState
    requires r.ReturnStmt?
  {
    if st.currentReturnType.None? then st
    else
      var expected := st.currentReturnType.value;
      var valueType := InferType(r.value, st.symbols, st.functions);
      if TypesCompatible(expected, valueType) then st
      else
        AddError(st, source,
                 "Return type mismatch: function " + Quote(OptionalName(st.currentFunction))
                 + " should return " + Quote(expected.name) + " but returning " + Quote(valueType.name),
                 r.line, r.column,
                 ["Change the function's return type to " + Quote(valueType.name),
                  "Or convert the return value to " + Quote(expected.name)])
  }

  /** The condition under which `_check_compound_assignment` reports an error. */
  predicate CompoundRejected(st: CheckerState, c: Node)
    requires c.CompoundAssignment?
  {
    c.name in st.symbols && c.operator in {"+", "-", "*", "/"} && !st.symbols[c.name].isNumeric
    && !(c.operator == "+" && st.symbols[c.name].name == "str")
  }

  /** `_check_compound_assignment`. */
  function CheckCompound(st: CheckerState, c: Node, source: string): CheckerState
    requires c.CompoundAssignment?
  {
    if CompoundRejected(st, c) then
      AddError(st, source,
               "Cannot use " + Quote(c.operator + "=") + " operator on non-numeric type "
               + Quote(st.symbols[c.name].name),
               c.line, c.column,
               ["Variable " + Quote(c.name) + " must be int or float for arithmetic operations"])
    else st
  }

  /** `_check_statement`: only these four kinds are checked. */
  function CheckStmt(st: CheckerState, stmt: Node, source: string): CheckerState
    decreases stmt, 1
  {
    if stmt.FunctionDef? then CheckFunction(st, stmt, source)
    else if stmt.VariableDef? then CheckVariableDef(st, stmt, source)
    else if stmt.ReturnStmt? then CheckReturn(st, stmt, source)
    else if stmt.CompoundAssignment? then CheckCompound(st, stmt, source)
    else st
  }

  /** The state a function body starts from. */
  function EnterFunction(st: CheckerState, f: Node): CheckerState
    requires f.FunctionDef?
  {
    st.(currentFunction := Some(f.name), currentReturnType := Some(ResolveType(f.outputType)),
        symbols := BindParams(st.symbols, f.inputTypes))
  }

  /** `_check_function`: the body is checked in the function's scope, then the symbols and
      the current function context are put back. */
  function CheckFunction(st: CheckerState, f: Node, source: string): CheckerState
    requires f.FunctionDef?
    decreases f, 0
  {
    var after := CheckBody(EnterFunction(st, f), f.body, source);
    after.(symbols := st.symbols, currentFunction := st.currentFunction,
           currentReturnType := st.currentReturnType)
  }

  /** The statements checked in order. */
  function CheckBody(st: CheckerState, stmts: seq<Node>, source: string): CheckerState
    decreases stmts
  {
    if stmts == [] then st
    else CheckStmt(CheckBody(st, stmts[..|stmts| - 1], source), stmts[|stmts| - 1], source)
  }

  /** `check`: clear the errors, symbols and functions, register every signature, then
      check every statement. */
  function CheckProgram(st: CheckerState, program: Node, source: string): CheckerState
    requires program.Program?
  {
    var start := st.(errors := [], symbols := map[], functions := Signatures(program.statements));
    CheckBody(start, program.statements, source)
  }

  // ----- Properties of the walk -----

  /** Checking a statement never changes the function table or the current function
      context, and only appends errors. */
  lemma {:induction false} StmtKeepsContext(st: CheckerState, stmt: Node, source: string)
    ensures var after := CheckStmt(st, stmt, source);
      after.functions == st.functions && after.currentFunction == st.currentFunction &&
      after.currentReturnType == st.currentReturnType && st.errors <= after.errors
    decreases stmt, 1
  {
    if stmt.FunctionDef? {
      BodyKeepsContext(EnterFunction(st, stmt), stmt.body, source);
    } else {
      SimpleStmtKeepsContext(st, stmt, source);
    }
  }

  lemma SimpleStmtKeepsContext(st: CheckerState, stmt: Node, source: string)
    requires !stmt.FunctionDef?
    ensures var after := CheckStmt(st, stmt, source);
      after.functions == st.functions && after.currentFunction == st.currentFunction &&
      after.currentReturnType == st.currentReturnType && st.errors <= after.errors
  {
    if stmt.VariableDef? {
      VariableKeepsContext(st, stmt, source);
    } else if stmt.ReturnStmt? {
      ReturnKeepsContext(st, stmt, source);
    } else if stmt.CompoundAssignment? {
      CompoundKeepsContext(st, stmt, source);
    }
  }

  lemma AddErrorAppends(st: CheckerState, source: string, message: string, line: int, column: int,
                        hints: seq<string>)
    ensures var after := AddError(st, source, message, line, column, hints);
      after.functions == st.functions && after.currentFunction == st.currentFunction &&
      after.currentReturnType == st.currentReturnType && after.symbols == st.symbols &&
      after.errors == st.errors + [after.errors[|st.errors|]]
  {
  }

  lemma VariableKeepsContext(st: CheckerState, v: Node, source: string)
    requires v.VariableDef?
    ensures var after := CheckVariableDef(st, v, source);
      after.functions == st.functions && after.currentFunction == st.currentFunction &&
      after.currentReturnType == st.currentReturnType && st.errors <= after.errors
  {
    var valueType := InferType(v.value, st.symbols, st.functions);
    if v.typeAnnotation.Some? {
      var declared := ResolveType(v.typeAnnotation.value);
      AddErrorAppends(st, source, MismatchMessage(v.name, declared, valueType), v.line, v.column,
                      ["Change the type annotation to " + Quote(valueType.name),
                       "Or convert the value to type " + Quote(declared.name)]);
    }
  }

  lemma ReturnKeepsContext(st: CheckerState, r: Node, source: string)
    requires r.ReturnStmt?
    ensures var after := CheckReturn(st, r, source);
      after.functions == st.functions && after.currentFunction == st.currentFunction &&
      after.currentReturnType == st.currentReturnType && st.errors <= after.errors
  {
  }

  lemma CompoundKeepsContext(st: CheckerState, c: Node, source: string)
    requires c.CompoundAssignment?
    ensures var after := CheckCompound(st, c, source);
      after.functions == st.functions && after.currentFunction == st.currentFunction &&
      after.currentReturnType == st.currentReturnType && st.errors <= after.errors
  {
  }

  lemma {:induction false} BodyKeepsContext(st: CheckerState, stmts: seq<Node>, source: string)
    ensures var after := CheckBody(st, stmts, source);
      after.functions == st.functions && after.currentFunction == st.currentFunction &&
      after.currentReturnType == st.currentReturnType && st.errors <= after.errors
    decreases stmts
  {
    if stmts != [] {
      var before := CheckBody(st, stmts[..|stmts| - 1], source);
      BodyKeepsContext(st, stmts[..|stmts| - 1], source);
      StmtKeepsContext(before, stmts[|stmts| - 1], source);
    }
  }

  /** After a function definition is checked, everything but the error list is exactly as
      before: the body's variables and parameters do not leak, and the current function and
      return type are restored. */
  lemma FunctionRestoresScope(st: CheckerState, f: Node, source: string)
    requires f.FunctionDef?
    ensures var after := CheckStmt(st, f, source);
      after == st.(errors := after.errors) && st.errors <= after.errors
  {
    BodyKeepsContext(EnterFunction(st, f), f.body, source);
  }

  /** Checking the same program twice gives the same errors: `check` resets everything the
      previous run could have changed. */
  lemma CheckTwiceSameErrors(st: CheckerState, program: Node, source: string)
    requires program.Program?
    ensures var first := CheckProgram(st, program, source);
            CheckProgram(first, program, source).errors == first.errors
  {
    var start := st.(errors := [], symbols := map[], functions := Signatures(program.statements));
    BodyKeepsContext(start, program.statements, source);
  }

  /** Pass 1 records the last definition of every name, wherever it appears. */
  lemma {:induction false} SignaturesLastDefinition(stmts: seq<Node>, j: nat)
    requires j < |stmts| && stmts[j].FunctionDef?
    requires forall k :: j < k < |stmts| && stmts[k].FunctionDef? ==> stmts[k].name != stmts[j].name
    ensures stmts[j].name in Signatures(stmts) && Signatures(stmts)[stmts[j].name] == SignatureOf(stmts[j])
    decreases |stmts|
  {
    var n := |stmts|;
    if j < n - 1 {
      var prefix := stmts[..n - 1];
      assert prefix[j] == stmts[j];
      forall k | j < k < |prefix| && prefix[k].FunctionDef?
        ensures prefix[k].name != prefix[j].name
      {
        assert prefix[k] == stmts[k];
      }
      SignaturesLastDefinition(prefix, j);
    }
  }

  /** A call to a top-level function infers its declared return type even when the call
      comes before the definition. */
  lemma ForwardCallType(stmts: seq<Node>, j: nat, line: int, column: int, args: seq<Node>,
                        symbols: map<string, TypeInfo>)
    requires j < |stmts| && stmts[j].FunctionDef?
    requires forall k :: j < k < |stmts| && stmts[k].FunctionDef? ==> stmts[k].name != stmts[j].name
    ensures InferType(FunctionCall(line, column, Identifier(line, column, stmts[j].name), args),
                      symbols, Signatures(stmts))
         == ResolveType(stmts[j].outputType)
  {
    SignaturesLastDefinition(stmts, j);
  }

  lemma ParamNameInjective(a: nat, b: nat)
    ensures ParamName(a) == ParamName(b) ==> a == b
  {
    if ParamName(a) == ParamName(b) {
      assert NatToString(a) == ParamName(a)[1..];
      assert NatToString(b) == ParamName(b)[1..];
      DecimalRoundTrip(a);
      DecimalRoundTrip(b);
    }
  }

  /** In a function body, `i<k>` has the resolved type of the k-th input. */
  lemma {:induction false} ParamsBound(symbols: map<string, TypeInfo>, inputs: seq<Type>, k: nat)
    requires k < |inputs|
    ensures ParamName(k) in BindParams(symbols, inputs)
    ensures BindParams(symbols, inputs)[ParamName(k)] == ResolveType(inputs[k])
    decreases |inputs|
  {
    var n := |inputs|;
    if k < n - 1 {
      ParamsBound(symbols, inputs[..n - 1], k);
      ParamNameInjective(k, n - 1);
      assert inputs[..n - 1][k] == inputs[k];
    }
  }

  /** Names other than the parameters keep their enclosing binding in a function body. */
  lemma {:induction false} ParamsKeepOthers(symbols: map<string, TypeInfo>, inputs: seq<Type>, name: string)
    requires forall k: nat :: k < |inputs| ==> name != ParamName(k)
    ensures name in BindParams(symbols, inputs) <==> name in symbols
    ensures name in symbols ==> BindParams(symbols, inputs)[name] == symbols[name]
    decreases |inputs|
  {
    if inputs != [] {
      ParamsKeepOthers(symbols, inputs[..|inputs| - 1], name);
    }
  }

  lemma OccursInMiddle(a: string, b: string, c: string)
    ensures OccursAt(a + b + c, b, |a|)
  {
    assert (a + b + c)[|a|..|a| + |b|] == b;
  }

  /** An annotated variable whose value type is incompatible adds exactly one error, which
      names both the declared and the inferred type; either way the declared type is stored. */
  lemma AnnotatedVariable(st: CheckerState, v: Node, source: string)
    requires v.VariableDef? && v.typeAnnotation.Some?
    ensures var declared := ResolveType(v.typeAnnotation.value);
      var inferred := InferType(v.value, st.symbols, st.functions);
      var after := CheckStmt(st, v, source);
      after.symbols == st.symbols[v.name := declared] &&
      (TypesCompatible(declared, inferred) ==> after.errors == st.errors) &&
      (!TypesCompatible(declared, inferred) ==>
         |after.errors| == |st.errors| + 1 && after.errors[..|st.errors|] == st.errors &&
         var e := after.errors[|st.errors|];
         e.cls == Errors.TypeError && e.location == Some(Errors.At(v.line, v.column)) &&
         (exists i :: OccursAt(e.message, Quote(declared.name), i)) &&
         (exists i :: OccursAt(e.message, Quote(inferred.name), i)))
  {
    var declared := ResolveType(v.typeAnnotation.value);
    var inferred := InferType(v.value, st.symbols, st.functions);
    MismatchNamesBoth(v.name, declared, inferred);
  }

  /** The mismatch message quotes both the declared and the inferred type. */
  lemma MismatchNamesBoth(name: string, declared: TypeInfo, value: TypeInfo)
    ensures exists i :: OccursAt(MismatchMessage(name, declared, value), Quote(declared.name), i)
    ensures exists i :: OccursAt(MismatchMessage(name, declared, value), Quote(value.name), i)
  {
    var m := MismatchMessage(name, declared, value);
    var head := "Type mismatch: variable " + Quote(name) + " declared as ";
    var middle := " but assigned value of type ";
    OccursInMiddle(head, Quote(declared.name), middle + Quote(value.name));
    OccursInMiddle(head + Quote(declared.name) + middle, Quote(value.name), "");
    assert m == head + Quote(declared.name) + (middle + Quote(value.name));
    assert m == (head + Quote(declared.name) + middle) + Quote(value.name) + "";
  }

  /** An unannotated variable stores the inferred type and adds no error. */
  lemma UnannotatedVariable(st: CheckerState, v: Node, source: string)
    requires v.VariableDef? && v.typeAnnotation.None?
    ensures CheckStmt(st, v, source)
         == st.(symbols := st.symbols[v.name := InferType(v.value, st.symbols, st.functions)])
  {
  }

  /** A return outside any function is not checked. */
  lemma TopLevelReturnIgnored(st: CheckerState, r: Node, source: string)
    requires r.ReturnStmt? && st.currentReturnType.None?
    ensures CheckStmt(st, r, source) == st
  {
  }

  /** A compound assignment adds one error exactly when the variable is known, has a
      non-numeric type and the operator is arithmetic, except `+=` on a string. */
  lemma CompoundAssignmentErrors(st: CheckerState, c: Node, source: string)
    requires c.CompoundAssignment?
    ensures var after := CheckStmt(st, c, source);
      after.symbols == st.symbols && st.errors <= after.errors &&
      |after.errors| == |st.errors| + (if CompoundRejected(st, c) then 1 else 0)
    ensures c.name in st.symbols && st.symbols[c.name] == StrType ==>
      (CompoundRejected(st, c) <==> c.operator in {"-", "*", "/"})
  {
  }

  /** Statements other than the four checked kinds leave the checker's state alone. */
  lemma OtherStatementsUnchecked(st: CheckerState, stmt: Node, source: string)
    requires !stmt.FunctionDef? && !stmt.VariableDef? && !stmt.ReturnStmt? && !stmt.CompoundAssignment?
    ensures CheckStmt(st, stmt, source) == st
  {
  }

  // ----- The checker object -----

  /** `TypeChecker`: the checker's fields, updated as the walk proceeds. */
  class Checker {
    const source: string
    var errors: seq<Errors.VLError>
    var symbols: map<string, TypeInfo>
    var functions: map<string, Signature>
    var currentFunction: Option<string>
    var currentReturnType: Option<TypeInfo>

    function State(): CheckerState
      reads this
    {
      CheckerState(errors, symbols, functions, currentFunction, currentReturnType)
    }

    constructor(source: string)
      ensures this.source == source
      ensures State() == CheckerState([], map[], map[], None, None)
    {
      this.source := source;
      errors := [];
      symbols := map[];
      functions := map[];
      currentFunction := None;
      currentReturnType := None;
    }

    /** `check`: the errors of one run, in the order found. */
    method Check(program: Node) returns (r: seq<Errors.VLError>)
      requires program.Program?
      modifies this
      ensures State() == CheckProgram(old(State()), program, source)
      ensures r == errors
    {
      errors := [];
      symbols := map[];
      functions := map[];
      var stmts := program.statements;
      for i := 0 to |stmts|
        invariant functions == Signatures(stmts[..i])
        invariant errors == [] && symbols == map[]
        invariant currentFunction == old(currentFunction) && currentReturnType == old(currentReturnType)
      {
        assert stmts[..i + 1][..i] == stmts[..i];
        if stmts[i].FunctionDef? {
          RegisterFunction(stmts[i]);
        }
      }
      assert stmts[..|stmts|] == stmts;
      ghost var start := State();
      for i := 0 to |stmts|
        invariant State() == CheckBody(start, stmts[..i], source)
      {
        assert stmts[..i + 1][..i] == stmts[..i];
        CheckStatement(stmts[i]);
      }
      assert stmts[..|stmts|] == stmts;
      r := errors;
    }

    /** `_register_function`. */
    method RegisterFunction(f: Node)
      requires f.FunctionDef?
      modifies this
      ensures State() == old(State()).(functions := Register(old(functions), f))
    {
      var inputs: seq<TypeInfo> := [];
      for i := 0 to |f.inputTypes|
        invariant |inputs| == i
        invariant forall k :: 0 <= k < i ==> inputs[k] == ResolveType(f.inputTypes[k])
      {
        inputs := inputs + [ResolveType(f.inputTypes[i])];
      }
      assert inputs == SignatureOf(f).inputs;
      functions := functions[f.name := Signature(inputs, ResolveType(f.outputType))];
    }

    /** `_check_statement`. */
    method CheckStatement(stmt: Node)
      modifies this
      ensures State() == CheckStmt(old(State()), stmt, source)
      decreases stmt, 1
    {
      if stmt.FunctionDef? {
        CheckFunctionDef(stmt);
      } else if stmt.VariableDef? {
        CheckVariable(stmt);
      } else if stmt.ReturnStmt? {
        CheckReturnStmt(stmt);
      } else if stmt.CompoundAssignment? {
        CheckCompoundAssignment(stmt);
      }
    }

    /** `_check_function`: save the scope, bind the parameters, check the body, restore. */
    method CheckFunctionDef(f: Node)
      requires f.FunctionDef?
      modifies this
      ensures State() == CheckFunction(old(State()), f, source)
      decreases f, 0
    {
      var oldSymbols := symbols;
      var oldFunction := currentFunction;
      var oldReturnType := currentReturnType;
      EnterScope(f);
      ghost var entered := State();
      for i := 0 to |f.body|
        invariant State() == CheckBody(entered, f.body[..i], source)
      {
        assert f.body[..i + 1][..i] == f.body[..i];
        CheckStatement(f.body[i]);
      }
      assert f.body[..|f.body|] == f.body;
      symbols := oldSymbols;
      currentFunction := oldFunction;
      currentReturnType := oldReturnType;
    }

    /** The start of `_check_function`: set the context and bind `i0`, `i1`, ... */
    method EnterScope(f: Node)
      requires f.FunctionDef?
      modifies this
      ensures State() == EnterFunction(old(State()), f)
    {
      var outer := symbols;
      currentFunction := Some(f.name);
      currentReturnType := Some(ResolveType(f.outputType));
      for idx := 0 to |f.inputTypes|
        invariant symbols == BindParams(outer, f.inputTypes[..idx])
        invariant errors == old(errors) && functions == old(functions)
        invariant currentFunction == Some(f.name) && currentReturnType == Some(ResolveType(f.outputType))
      {
        assert f.inputTypes[..idx + 1][..idx] == f.inputTypes[..idx];
        symbols := symbols[ParamName(idx) := ResolveType(f.inputTypes[idx])];
      }
      assert f.inputTypes[..|f.inputTypes|] == f.inputTypes;
    }

    /** `_check_variable_def`. */
    method CheckVariable(v: Node)
      requires v.VariableDef?
      modifies this
      ensures State() == CheckVariableDef(old(State()), v, source)
    {
      var valueType := InferType(v.value, symbols, functions);
      if v.typeAnnotation.Some? {
        var declared := ResolveType(v.typeAnnotation.value);
        if !TypesCompatible(declared, valueType) {
          AddTypeError(MismatchMessage(v.name, declared, valueType), v.line, v.column,
                       ["Change the type annotation to " + Quote(valueType.name),
                        "Or convert the value to type " + Quote(declared.name)]);
        }
        symbols := symbols[v.name := declared];
      } else {
        symbols := symbols[v.name := valueType];
      }
    }

    /** `_check_return`. */
    method CheckReturnStmt(r: Node)
      requires r.ReturnStmt?
      modifies this
      ensures State() == CheckReturn(old(State()), r, source)
    {
      if currentReturnType.None? {
        return;
      }
      var expected := currentReturnType.value;
      var valueType := InferType(r.value, symbols, functions);
      if !TypesCompatible(expected, valueType) {
        AddTypeError("Return type mismatch: function " + Quote(OptionalName(currentFunction))
                     + " should return " + Quote(expected.name) + " but returning " + Quote(valueType.name),
                     r.line, r.column,
                     ["Change the function's return type to " + Quote(valueType.name),
                      "Or convert the return value to " + Quote(expected.name)]);
      }
    }

    /** `_check_compound_assignment`. */
    method CheckCompoundAssignment(c: Node)
      requires c.CompoundAssignment?
      modifies this
      ensures State() == CheckCompound(old(State()), c, source)
    {
      if c.name in symbols {
        var varType := symbols[c.name];
        if c.operator in {"+", "-", "*", "/"} && !varType.isNumeric {
          if !(c.operator == "+" && varType.name == "str") {
            AddTypeError("Cannot use " + Quote(c.operator + "=") + " operator on non-numeric type "
                         + Quote(varType.name),
                         c.line, c.column,
                         ["Variable " + Quote(c.name) + " must be int or float for arithmetic operations"]);
          }
        }
      }
    }

    /** `_add_error`. */
    method AddTypeError(message: string, line: int, column: int, hints: seq<string>)
      modifies this
      ensures State() == AddError(old(State()), source, message, line, column, hints)
    {
      var e := Errors.VLError(Errors.TypeError, message, Some(Errors.At(line, column)),
                              Errors.FormatErrorContext(source, line, column), hints);
      errors := errors + [e];
    }
  }

  /** `type_check`: a fresh checker's errors for the program. */
  method TypeCheck(program: Node, source: string) returns (r: seq<Errors.VLError>)
    requires program.Program?
    ensures r == CheckProgram(CheckerState([], map[], map[], None, None), program, source).errors
  {
    var checker := new Checker(source);
    r := checker.Check(program);
  }
}

/** Evaluation of expression trees (ast.go, value.go, interpreter.go) and what it promises about the
    trees the parser builds. */
module Evaluation {
  import opened Wrappers
  import opened Syntax
  import opened Grammar
  import opened Parsing
  import opened Lexing
  import opened ParserTheorems

  /** What a metrics map can hold: the evaluator accepts booleans and numbers (int or float32). */
  datatype Variable = BoolVar(b: bool) | NumVar(n: real) | OtherVar

  type Metrics = map<string, Variable>

  /** The value struct: a type tag with `b` and `n` fields that are false and 0 when unused. */
  datatype Val = Null | Boolean(b: bool) | Amount(n: real) {
    predicate Truth() {
      Boolean? && b
    }

    function Quantity(): real {
      if Amount? then n else 0.0
    }
  }

  /** What the message of an `EvaluationError` says beyond its expression. */
  datatype Reason = NotOnNil | Unsupported | WrongType | NotBoolean(isNil: bool)

  /** An `EvaluationError` with its expression, or a failed type assertion of the visitor, which `Evaluate`
      turns into an error without contents.  Two errors are deeply equal exactly when they are equal here. */
  datatype Fault = EvaluationFault(at: Expr, why: Reason) | AssertionFault

  function Compares(op: Token, x: real, y: real): (b: bool)
    requires IsCompareOp(op)
  {
    match op
    case Less => x < y
    case Lte => x <= y
    case Greater => x > y
    case Gte => x >= y
    case Equals => x == y
    case NotEquals => x != y
  }

  function CompareValues(op: Token, l: Val, r: Val): (v: Result<Val, Reason>) {
    if r.Null? then
      if op.Equals? then Success(Boolean(l.Null?))
      else if op.NotEquals? then Success(Boolean(!l.Null?))
      else Failure(NotOnNil)
    else if l.Null? then Success(Boolean(false))
    else if IsCompareOp(op) then Success(Boolean(Compares(op, l.Quantity(), r.Quantity())))
    else Failure(Unsupported)
  }

  function Eval(e: Expr, m: Metrics): (v: Result<Val, Fault>) {
    match e
    case Literal(name) =>
      if name !in m then Success(Null)
      else (
        match m[name]
        case BoolVar(b) => Success(Boolean(b))
        case NumVar(n) => Success(Amount(n))
        case OtherVar => Failure(EvaluationFault(e, WrongType))
      )
    case NilLit => Success(Null)
    case Num(x) => Success(Amount(x))
    case Unary(_, x) => if x.Num? then Success(Amount(-x.number)) else Failure(AssertionFault)
    case Value(q, _) => if q.Num? then Success(Amount(q.number)) else Failure(AssertionFault)
    case Comp(l, op, r) =>
      var x :- Eval(l, m);
      var y :- Eval(r, m);
      (match CompareValues(op, x, y)
       case Success(v) => Success(v)
       case Failure(why) => Failure(EvaluationFault(e, why)))
    case Logic(l, op, r) =>
      var x :- Eval(l, m);
      var y :- Eval(r, m);
      if op.Or? then Success(Boolean(x.Truth() || y.Truth()))
      else if op.And? then Success(Boolean(x.Truth() && y.Truth()))
      else Failure(EvaluationFault(e, Unsupported))
    case Group(x) => Eval(x, m)
  }

  /** `Interpreter.Evaluate`: the boolean result and the error that comes with it. */
  datatype Verdict = Verdict(result: bool, error: Option<Fault>)

  function Evaluate(e: Expr, m: Metrics): (v: Verdict)
    ensures v.error.Some? ==> !v.result
  {
    match Eval(e, m)
    case Success(Boolean(b)) => Verdict(b, None)
    case Success(v) => Verdict(false, Some(EvaluationFault(e, NotBoolean(v.Null?))))
    case Failure(fault) => Verdict(false, Some(fault))
  }

  // ----- the trees the parser returns -----

  predicate IsConstantTree(e: Expr) {
    e.Num? || e.NilLit? || (e.Unary? && e.uop.Dec? && e.operand.Num?)
  }

  predicate IsOperandTree(e: Expr) {
    IsConstantTree(e) || (e.Value? && IsConstantTree(e.quantity) && e.unit.Literal?)
  }

  /** The shape of every tree the parser returns. */
  predicate IsTree(e: Expr) {
    match e
    case Comp(l, op, r) => IsTree(l) && !l.Comp? && !l.Logic? && IsCompareOp(op) && IsOperandTree(r)
    case Logic(l, op, r) => IsTree(l) && IsTree(r) && (op.Or? || op.And?)
    case Group(x) => IsTree(x)
    case Unary(_, _) => false
    case Value(_, _) => false
    case _ => true
  }

  lemma {:induction false} PrimaryTree(w: seq<Lexeme>, e: Expr)
    requires IsPrimary(w, e)
    ensures IsTree(e) && !e.Comp? && !e.Logic?
    decreases e, 0
  {
    if e.Group? {
      OrTree(w[1..|w| - 1], e.inner);
    }
  }

  lemma {:induction false} CompareTree(w: seq<Lexeme>, e: Expr)
    requires IsCompare(w, e)
    ensures IsTree(e)
    decreases e, 1
  {
    if IsPrimary(w, e) {
      PrimaryTree(w, e);
    } else {
      var k :| 0 <= k < |w| && ComparesAt(w, e, k);
      PrimaryTree(w[..k], e.left);
    }
  }

  lemma {:induction false} AndTree(w: seq<Lexeme>, e: Expr)
    requires IsAnd(w, e)
    ensures IsTree(e)
    decreases e, 2
  {
    if IsCompare(w, e) {
      CompareTree(w, e);
    } else {
      var k :| 0 <= k < |w| && JoinsAt(w, e, k);
      CompareTree(w[..k], e.first);
      CompareTree(w[k + 1..], e.second);
    }
  }

  lemma {:induction false} OrTree(w: seq<Lexeme>, e: Expr)
    requires IsOr(w, e)
    ensures IsTree(e)
    decreases e, 3
  {
    if IsAnd(w, e) {
      AndTree(w, e);
    } else {
      var k :| 0 <= k < |w| && AltersAt(w, e, k);
      OrTree(w[..k], e.first);
      AndTree(w[k + 1..], e.second);
    }
  }

  /** An interpreter holds a tree that `New` parsed from some expression text. */
  ghost predicate IsParsed(e: Expr) {
    exists src: string :: Parse(src).Some? && Parse(src).value.0 == e
  }

  lemma ParsedTree(e: Expr)
    requires IsParsed(e)
    ensures IsTree(e)
  {
    var src: string :| Parse(src).Some? && Parse(src).value.0 == e;
    ParseSound(src);
    OrTree(Consumed(Lex(src), Parse(src).value.1), e);
  }

  // ----- static definedness -----

  predicate Numeric(m: Metrics) {
    forall x :: x in m ==> m[x].NumVar?
  }

  /** The visitor panics on this tree: a unit after something that is not a plain number, or an
      ordering against `nil`. */
  predicate Panics(e: Expr) {
    match e
    case Comp(l, op, r) => Panics(l) || PanicsAsOperand(r) || (r.NilLit? && !op.Equals? && !op.NotEquals?)
    case Logic(l, _, r) => Panics(l) || Panics(r)
    case Group(x) => Panics(x)
    case _ => false
  }

  predicate PanicsAsOperand(e: Expr) {
    e.Value? && !e.quantity.Num?
  }

  /** The tree has a boolean at its root. */
  predicate IsBoolean(e: Expr) {
    match e
    case Comp(_, _, _) => true
    case Logic(_, _, _) => true
    case Group(x) => IsBoolean(x)
    case _ => false
  }

  lemma {:induction false} EvalIsStatic(e: Expr, m: Metrics)
    requires IsTree(e) && Numeric(m)
    ensures Eval(e, m).Failure? <==> Panics(e)
    ensures Eval(e, m).Success? ==> (Eval(e, m).value.Boolean? <==> IsBoolean(e))
  {
    match e
    case Comp(l, op, r) => EvalIsStatic(l, m);
    case Logic(l, op, r) => EvalIsStatic(l, m); EvalIsStatic(r, m);
    case Group(x) => EvalIsStatic(x, m);
    case _ =>
  }

  /** Over numeric metrics an interpreter reports an error exactly when its expression panics or is not
      boolean: a property of the expression alone.  In particular a missing metric is never an error. */
  lemma ErrorIsStatic(e: Expr, m: Metrics)
    requires IsParsed(e) && Numeric(m)
    ensures Evaluate(e, m).error.Some? <==> Panics(e) || !IsBoolean(e)
  {
    ParsedTree(e);
    EvalIsStatic(e, m);
  }

  // ----- monotonicity in the set of known metrics -----

  /** No comparison of the form `x == nil`: the only construct that a missing metric makes true. */
  predicate NoNilTest(e: Expr) {
    match e
    case Comp(l, op, r) => NoNilTest(l) && !(op.Equals? && r.NilLit?)
    case Logic(l, _, r) => NoNilTest(l) && NoNilTest(r)
    case Group(x) => NoNilTest(x)
    case _ => true
  }

  /** What can happen to a value when a metric appears. */
  predicate Grows(v: Val, v': Val) {
    match v
    case Null => true
    case Boolean(b) => v'.Boolean? && (b ==> v'.b)
    case Amount(n) => v' == v
  }

  lemma {:induction false} EvalGrows(e: Expr, m: Metrics, m': Metrics)
    requires IsTree(e) && NoNilTest(e) && Numeric(m')
    requires m.Keys <= m'.Keys && forall x :: x in m ==> m'[x] == m[x]
    requires Eval(e, m).Success? && Eval(e, m').Success?
    ensures Grows(Eval(e, m).value, Eval(e, m').value)
    ensures IsBoolean(e) ==> Eval(e, m).value.Boolean?
  {
    match e
    case Comp(l, op, r) => EvalGrows(l, m, m'); OperandIsConstant(r, m, m');
    case Logic(l, op, r) => EvalGrows(l, m, m'); EvalGrows(r, m, m');
    case Group(x) => EvalGrows(x, m, m');
    case _ =>
  }

  lemma OperandIsConstant(e: Expr, m: Metrics, m': Metrics)
    requires IsOperandTree(e)
    ensures Eval(e, m) == Eval(e, m')
    ensures Eval(e, m).Success? ==> (Eval(e, m).value.Null? <==> e.NilLit?) && !Eval(e, m).value.Boolean?
  {}

  /** A condition that holds keeps holding when further metrics become known. */
  lemma TrueStaysTrue(e: Expr, m: Metrics, m': Metrics)
    requires IsParsed(e) && NoNilTest(e) && Numeric(m')
    requires m.Keys <= m'.Keys && forall x :: x in m ==> m'[x] == m[x]
    requires Evaluate(e, m).result
    ensures Evaluate(e, m').result
  {
    ParsedTree(e);
    assert Numeric(m);
    EvalIsStatic(e, m);
    EvalIsStatic(e, m');
    EvalGrows(e, m, m');
  }
}

/** The grammar that internal/configuration/interpreter/parser.go implements, as derivation
    predicates: `IsX(w, e)` says that the token string `w` is an X with the tree `e`.

      expression: and ("||" and)*
      and:        compare ["&&" compare]
      compare:    primary [cmpop value]
      value:      unary [STRING]
      unary:      "-" NUMBER | NUMBER | NIL
      primary:    STRING | NUMBER | NIL | "(" expression ")"

    The comment at the head of parser.go promises `("&&" comparison)*`; the code takes at most one. */
module Grammar {
  import opened Wrappers
  import opened Syntax
  import opened Numbers

  ghost predicate IsConstant(w: seq<Lexeme>, e: Expr) {
    |w| == 1 && w[0].tok.Number? && e.Num? && ParseNumber(w[0].val) == Some(e.number)
  }

  ghost predicate IsNil(w: seq<Lexeme>, e: Expr) {
    |w| == 1 && w[0].tok.Nil? && e.NilLit?
  }

  ghost predicate IsName(w: seq<Lexeme>, e: Expr) {
    |w| == 1 && w[0].tok.Str? && e == Literal(w[0].val)
  }

  ghost predicate IsPrimary(w: seq<Lexeme>, e: Expr)
    decreases e, 0
  {
    || IsName(w, e)
    || IsConstant(w, e)
    || IsNil(w, e)
    || (&& e.Group? && |w| >= 2 && w[0].tok.LParen? && w[|w| - 1].tok.RParen?
        && IsOr(w[1..|w| - 1], e.inner))
  }

  ghost predicate IsUnary(w: seq<Lexeme>, e: Expr) {
    || IsConstant(w, e)
    || IsNil(w, e)
    || (e.Unary? && |w| == 2 && w[0].tok.Dec? && e.uop.Dec? && IsConstant(w[1..], e.operand))
  }

  ghost predicate IsValue(w: seq<Lexeme>, e: Expr) {
    || IsUnary(w, e)
    || (e.Value? && |w| >= 1 && IsUnary(w[..|w| - 1], e.quantity) && IsName(w[|w| - 1..], e.unit))
  }

  ghost predicate IsCompare(w: seq<Lexeme>, e: Expr)
    decreases e, 2
  {
    || IsPrimary(w, e)
    || exists k :: 0 <= k < |w| && ComparesAt(w, e, k)
  }

  ghost predicate ComparesAt(w: seq<Lexeme>, e: Expr, k: nat)
    requires k < |w|
    decreases e, 1
  {
    && e.Comp? && IsCompareOp(e.op) && w[k].tok == e.op
    && IsPrimary(w[..k], e.left) && IsValue(w[k + 1..], e.right)
  }

  ghost predicate IsAnd(w: seq<Lexeme>, e: Expr)
    decreases e, 3
  {
    || IsCompare(w, e)
    || exists k :: 0 <= k < |w| && JoinsAt(w, e, k)
  }

  ghost predicate JoinsAt(w: seq<Lexeme>, e: Expr, k: nat)
    requires k < |w|
    decreases e, 1
  {
    && e.Logic? && e.lop.And? && w[k].tok.And?
    && IsCompare(w[..k], e.first) && IsCompare(w[k + 1..], e.second)
  }

  ghost predicate IsOr(w: seq<Lexeme>, e: Expr)
    decreases e, 4
  {
    || IsAnd(w, e)
    || exists k :: 0 <= k < |w| && AltersAt(w, e, k)
  }

  ghost predicate AltersAt(w: seq<Lexeme>, e: Expr, k: nat)
    requires k < |w|
    decreases e, 1
  {
    && e.Logic? && e.lop.Or? && w[k].tok.Or?
    && IsOr(w[..k], e.first) && IsAnd(w[k + 1..], e.second)
  }

  // ----- composing derivations -----

  lemma MakeGroup(open: Lexeme, w: seq<Lexeme>, close: Lexeme, e: Expr)
    requires open.tok.LParen? && close.tok.RParen? && IsOr(w, e)
    ensures IsPrimary([open] + w + [close], Group(e))
  {}

  lemma MakeUnary(minus: Lexeme, w: seq<Lexeme>, e: Expr)
    requires minus.tok.Dec? && IsConstant(w, e)
    ensures IsUnary([minus] + w, Unary(Dec, e))
  {
    assert ([minus] + w)[1..] == w;
  }

  lemma MakeValue(w: seq<Lexeme>, e: Expr, n: seq<Lexeme>, unit: Expr)
    requires IsUnary(w, e) && IsName(n, unit)
    ensures IsValue(w + n, Value(e, unit))
  {}

  /** The three parts of a token string around an operator. */
  lemma PartsOf(l: seq<Lexeme>, op: Lexeme, r: seq<Lexeme>)
    ensures var w := l + [op] + r; |l| < |w| && w[..|l|] == l && w[|l|] == op && w[|l| + 1..] == r
  {}

  lemma {:induction false} MakeCompare(l: seq<Lexeme>, left: Expr, op: Lexeme, r: seq<Lexeme>, right: Expr)
    requires IsPrimary(l, left) && IsCompareOp(op.tok) && IsValue(r, right)
    ensures IsCompare(l + [op] + r, Comp(left, op.tok, right))
  {
    var w := l + [op] + r;
    PartsOf(l, op, r);
    assert ComparesAt(w, Comp(left, op.tok, right), |l|);
  }

  lemma {:induction false} MakeAnd(l: seq<Lexeme>, left: Expr, op: Lexeme, r: seq<Lexeme>, right: Expr)
    requires IsCompare(l, left) && op.tok.And? && IsCompare(r, right)
    ensures IsAnd(l + [op] + r, Logic(left, Token.And, right))
  {
    var w := l + [op] + r;
    PartsOf(l, op, r);
    assert JoinsAt(w, Logic(left, Token.And, right), |l|);
  }

  lemma {:induction false} MakeOr(l: seq<Lexeme>, left: Expr, op: Lexeme, r: seq<Lexeme>, right: Expr)
    requires IsOr(l, left) && op.tok.Or? && IsAnd(r, right)
    ensures IsOr(l + [op] + r, Logic(left, Token.Or, right))
  {
    var w := l + [op] + r;
    PartsOf(l, op, r);
    assert AltersAt(w, Logic(left, Token.Or, right), |l|);
  }
}

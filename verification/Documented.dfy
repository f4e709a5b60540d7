/** The grammar that the comment at the head of internal/configuration/interpreter/parser.go describes,
    and exactly for which of its sentences the code honours it.

      or:         and ("||" and)*
      and:        comparison ("&&" comparison)*
      comparison: primary [cmpop value]
      value:      unary [primary]
      unary:      "-" primary | primary
      primary:    STRING | NUMBER | NIL | "(" or ")"

    The comment has no brackets in `comparison`, which would shut out every parenthesised condition; with
    them each of its sentences is a sentence here, and each result holds for it. */
module Documented {
  import opened Wrappers
  import opened Syntax
  import opened Lexing
  import opened Grammar
  import opened Parsing
  import opened ParserTheorems
  import opened Evaluation
  import opened Printing

  ghost predicate DocPrimary(w: seq<Lexeme>, e: Expr)
    decreases e, 0
  {
    || IsName(w, e) || IsConstant(w, e) || IsNil(w, e)
    || (&& e.Group? && |w| >= 2 && w[0].tok.LParen? && w[|w| - 1].tok.RParen?
        && DocOr(w[1..|w| - 1], e.inner))
  }

  ghost predicate DocUnary(w: seq<Lexeme>, e: Expr)
    decreases e, 1
  {
    || DocPrimary(w, e)
    || (e.Unary? && e.uop.Dec? && |w| >= 1 && w[0].tok.Dec? && DocPrimary(w[1..], e.operand))
  }

  ghost predicate DocValue(w: seq<Lexeme>, e: Expr)
    decreases e, 2
  {
    DocUnary(w, e) || exists k :: 0 <= k < |w| && DocUnitAt(w, e, k)
  }

  /** A quantity and, from `k` on, its unit. */
  ghost predicate DocUnitAt(w: seq<Lexeme>, e: Expr, k: nat)
    requires k < |w|
    decreases e, 1
  {
    e.Value? && DocUnary(w[..k], e.quantity) && DocPrimary(w[k..], e.unit)
  }

  ghost predicate DocCompare(w: seq<Lexeme>, e: Expr)
    decreases e, 3
  {
    DocPrimary(w, e) || exists k :: 0 <= k < |w| && DocComparesAt(w, e, k)
  }

  ghost predicate DocComparesAt(w: seq<Lexeme>, e: Expr, k: nat)
    requires k < |w|
    decreases e, 1
  {
    && e.Comp? && IsCompareOp(e.op) && w[k].tok == e.op
    && DocPrimary(w[..k], e.left) && DocValue(w[k + 1..], e.right)
  }

  ghost predicate DocAnd(w: seq<Lexeme>, e: Expr)
    decreases e, 4
  {
    DocCompare(w, e) || exists k :: 0 <= k < |w| && DocJoinsAt(w, e, k)
  }

  /** The left operand may itself be a conjunction. */
  ghost predicate DocJoinsAt(w: seq<Lexeme>, e: Expr, k: nat)
    requires k < |w|
    decreases e, 1
  {
    && e.Logic? && e.lop.And? && w[k].tok.And?
    && DocAnd(w[..k], e.first) && DocCompare(w[k + 1..], e.second)
  }

  ghost predicate DocOr(w: seq<Lexeme>, e: Expr)
    decreases e, 5
  {
    DocAnd(w, e) || exists k :: 0 <= k < |w| && DocAltersAt(w, e, k)
  }

  ghost predicate DocAltersAt(w: seq<Lexeme>, e: Expr, k: nat)
    requires k < |w|
    decreases e, 1
  {
    && e.Logic? && e.lop.Or? && w[k].tok.Or?
    && DocOr(w[..k], e.first) && DocAnd(w[k + 1..], e.second)
  }

  // ----- where the code and the comment agree -----

  /** No conjunction has a third operand outside parentheses. */
  predicate PairsOnly(e: Expr) {
    match e
    case Group(x) => PairsOnly(x)
    case Comp(l, _, _) => PairsOnly(l)
    case Logic(l, op, r) => (op.And? ==> !l.Logic?) && PairsOnly(l) && PairsOnly(r)
    case _ => true
  }

  /** Comparisons are with constants, signed or followed by a name as their unit. */
  predicate ComparesConstants(e: Expr) {
    match e
    case Group(x) => ComparesConstants(x)
    case Comp(l, _, r) => ComparesConstants(l) && IsOperandTree(r)
    case Logic(l, _, r) => ComparesConstants(l) && ComparesConstants(r)
    case _ => true
  }

  lemma {:induction false} TreesCompareConstants(e: Expr)
    requires IsTree(e)
    ensures ComparesConstants(e)
  {
    match e
    case Group(x) => TreesCompareConstants(x);
    case Comp(l, _, r) => TreesCompareConstants(l);
    case Logic(l, _, r) => TreesCompareConstants(l); TreesCompareConstants(r);
    case _ =>
  }

  // ----- what the implemented grammar derives has pairs only -----

  lemma {:induction false} PrimaryHasPairs(w: seq<Lexeme>, e: Expr)
    requires IsPrimary(w, e)
    ensures PairsOnly(e) && !e.Logic?
    decreases e, 0
  {
    if e.Group? {
      OrHasPairs(w[1..|w| - 1], e.inner);
    }
  }

  lemma {:induction false} CompareHasPairs(w: seq<Lexeme>, e: Expr)
    requires IsCompare(w, e)
    ensures PairsOnly(e) && !e.Logic?
    decreases e, 1
  {
    if IsPrimary(w, e) {
      PrimaryHasPairs(w, e);
    } else {
      var k :| 0 <= k < |w| && ComparesAt(w, e, k);
      PrimaryHasPairs(w[..k], e.left);
    }
  }

  lemma {:induction false} AndHasPairs(w: seq<Lexeme>, e: Expr)
    requires IsAnd(w, e)
    ensures PairsOnly(e)
    decreases e, 2
  {
    if IsCompare(w, e) {
      CompareHasPairs(w, e);
    } else {
      var k :| 0 <= k < |w| && JoinsAt(w, e, k);
      CompareHasPairs(w[..k], e.first);
      CompareHasPairs(w[k + 1..], e.second);
    }
  }

  lemma {:induction false} OrHasPairs(w: seq<Lexeme>, e: Expr)
    requires IsOr(w, e)
    ensures PairsOnly(e)
    decreases e, 3
  {
    if IsAnd(w, e) {
      AndHasPairs(w, e);
    } else {
      var k :| 0 <= k < |w| && AltersAt(w, e, k);
      OrHasPairs(w[..k], e.first);
      AndHasPairs(w[k + 1..], e.second);
    }
  }

  // ----- a documented sentence of that kind is in the implemented grammar -----

  lemma {:induction false} PlainPrimary(w: seq<Lexeme>, e: Expr)
    requires DocPrimary(w, e) && PairsOnly(e) && ComparesConstants(e)
    ensures IsPrimary(w, e)
    decreases e, 0
  {
    if e.Group? {
      PlainOr(w[1..|w| - 1], e.inner);
    }
  }

  lemma {:induction false} PlainConstant(w: seq<Lexeme>, e: Expr)
    requires DocUnary(w, e) && IsConstantTree(e)
    ensures IsUnary(w, e)
  {
    if e.Unary? {
      assert DocPrimary(w[1..], e.operand);
    }
  }

  lemma {:induction false} PlainValue(w: seq<Lexeme>, e: Expr)
    requires DocValue(w, e) && IsOperandTree(e)
    ensures IsValue(w, e)
  {
    if e.Value? {
      assert !DocPrimary(w, e) && !DocUnary(w, e);
      var k :| 0 <= k < |w| && DocUnitAt(w, e, k);
      assert DocPrimary(w[k..], e.unit) && IsName(w[k..], e.unit);
      PlainConstant(w[..k], e.quantity);
    } else {
      PlainConstant(w, e);
    }
  }

  lemma {:induction false} PlainCompare(w: seq<Lexeme>, e: Expr)
    requires DocCompare(w, e) && PairsOnly(e) && ComparesConstants(e)
    ensures IsCompare(w, e)
    decreases e, 1
  {
    if DocPrimary(w, e) {
      PlainPrimary(w, e);
    } else {
      var k :| 0 <= k < |w| && DocComparesAt(w, e, k);
      PlainPrimary(w[..k], e.left);
      PlainValue(w[k + 1..], e.right);
      assert ComparesAt(w, e, k);
    }
  }

  lemma {:induction false} SingleOperand(w: seq<Lexeme>, e: Expr)
    requires DocAnd(w, e) && !e.Logic?
    ensures DocCompare(w, e)
  {}

  lemma {:induction false} PlainAnd(w: seq<Lexeme>, e: Expr)
    requires DocAnd(w, e) && PairsOnly(e) && ComparesConstants(e)
    ensures IsAnd(w, e)
    decreases e, 2
  {
    if DocCompare(w, e) {
      PlainCompare(w, e);
    } else {
      var k :| 0 <= k < |w| && DocJoinsAt(w, e, k);
      SingleOperand(w[..k], e.first);
      PlainCompare(w[..k], e.first);
      PlainCompare(w[k + 1..], e.second);
      assert JoinsAt(w, e, k);
    }
  }

  lemma {:induction false} PlainOr(w: seq<Lexeme>, e: Expr)
    requires DocOr(w, e) && PairsOnly(e) && ComparesConstants(e)
    ensures IsOr(w, e)
    decreases e, 3
  {
    if DocAnd(w, e) {
      PlainAnd(w, e);
    } else {
      var k :| 0 <= k < |w| && DocAltersAt(w, e, k);
      PlainOr(w[..k], e.first);
      PlainAnd(w[k + 1..], e.second);
      assert AltersAt(w, e, k);
    }
  }

  /** For every text that the documented grammar derives with the tree `e`: the parser returns that tree
      and reads the whole text if and only if no conjunction in it has a third operand and it compares
      with constants only. */
  lemma {:induction false} PromiseKeptIffPlain(src: string, e: Expr)
    requires var ts := Lex(src); ts[|ts| - 1] == EOL_LEXEME && DocOr(ts[..|ts| - 1], e)
    ensures Parse(src) == Some((e, [EOL_LEXEME])) <==> PairsOnly(e) && ComparesConstants(e)
  {
    var ts := Lex(src);
    var w := ts[..|ts| - 1];
    WholeInputIffSentence(src, e);
    if IsOr(w, e) {
      OrHasPairs(w, e);
      OrTree(w, e);
      TreesCompareConstants(e);
    }
    if PairsOnly(e) && ComparesConstants(e) {
      PlainOr(w, e);
    }
  }

  // ----- a documented sentence that is rejected -----

  /** Whatever follows a comparison operator must start like a constant. */
  lemma {:induction false} OperandMustBeConstant(l: seq<Lexeme>, left: Expr, op: Lexeme, r: Tokens)
    requires IsPrimary(l, left) && IsCompareOp(op.tok) && !r[0].tok.Illegal?
    requires !r[0].tok.Dec? && !r[0].tok.Number? && !r[0].tok.Nil?
    ensures ParseOr(l + ([op] + r)).None?
  {
    PrimaryComplete(l, left, [op] + r);
    assert ([op] + r)[1..] == r;
    assert ParseUnary(r).None? && ParseValue(r).None?;
    assert ParseCompare(l + ([op] + r)).None?;
    assert ParseAnd(l + ([op] + r)).None?;
  }

  /** The pieces of `x op y`. */
  function NameTest(x: string, op: Token, y: string): (ps: seq<Piece>) {
    [Piece(true, Lexeme(Str, x)), Op(op), Piece(true, Lexeme(Str, y))]
  }

  /** The comparison of two names, such as `x > y`, is a documented sentence and a parse error. */
  lemma {:induction false} NameOperandIsRejected(x: string, op: Token, y: string)
    requires IsIdentifier(x) && IsIdentifier(y) && IsCompareOp(op)
    ensures var ts := Lex(Spell(NameTest(x, op, y)));
            ts[|ts| - 1] == EOL_LEXEME && DocOr(ts[..|ts| - 1], Comp(Literal(x), op, Literal(y)))
    ensures Parse(Spell(NameTest(x, op, y))).None?
  {
    NameTestLex(x, op, y);
    var w := [Lexeme(Str, x)] + [Lexeme(op, "")] + [Lexeme(Str, y)];
    assert (w + [EOL_LEXEME])[..3] == w;
    NameTestDocumented(w, Comp(Literal(x), op, Literal(y)));
    NameTestFails(Lexeme(Str, x), Lexeme(op, ""), Lexeme(Str, y));
  }

  lemma {:induction false} NameTestFails(x: Lexeme, op: Lexeme, y: Lexeme)
    requires x.tok.Str? && IsCompareOp(op.tok) && y.tok.Str?
    ensures ParseOr([x] + [op] + [y] + [EOL_LEXEME]).None?
  {
    OperandMustBeConstant([x], Literal(x.val), op, [y] + [EOL_LEXEME]);
    assert [x] + [op] + [y] + [EOL_LEXEME] == [x] + ([op] + ([y] + [EOL_LEXEME]));
  }

  lemma {:induction false} NameTestLex(x: string, op: Token, y: string)
    requires IsIdentifier(x) && IsIdentifier(y) && IsCompareOp(op)
    ensures Lex(Spell(NameTest(x, op, y))) == [Lexeme(Str, x)] + [Lexeme(op, "")] + [Lexeme(Str, y)] + [EOL_LEXEME]
  {
    SpelledLexes(NameTest(x, op, y));
    assert Lexemes(NameTest(x, op, y)) == [Lexeme(Str, x)] + [Lexeme(op, "")] + [Lexeme(Str, y)];
  }

  lemma {:induction false} NameTestDocumented(w: seq<Lexeme>, e: Expr)
    requires |w| == 3 && e.Comp? && IsCompareOp(e.op) && w[1].tok == e.op
    requires IsName([w[0]], e.left) && IsName([w[2]], e.right)
    ensures DocOr(w, e)
  {
    assert w[..1] == [w[0]] && w[2..] == [w[2]];
    assert DocUnary(w[2..], e.right) && DocValue(w[2..], e.right);
    assert DocComparesAt(w, e, 1);
    assert DocCompare(w, e) && DocAnd(w, e);
  }

  // ----- documented sentences whose end is ignored -----

  /** The pieces of `name == nil`. */
  function NilTest(name: string): (ps: seq<Piece>) {
    [Piece(true, Lexeme(Str, name)), Op(Equals), Piece(true, Lexeme(Nil, "nil"))]
  }

  /** The pieces of three operands joined by `&&`. */
  function Joined(a: seq<Piece>, b: seq<Piece>, c: seq<Piece>): (ps: seq<Piece>) {
    a + [Op(Token.And)] + b + ([Op(Token.And)] + c)
  }

  lemma JoinedSeparable(a: seq<Piece>, b: seq<Piece>, c: seq<Piece>)
    requires Separable(a) && Separable(b) && Separable(c) && b != [] && c != [] && b[0].spaced && c[0].spaced
    ensures Separable(Joined(a, b, c))
  {}

  lemma JoinedLexemes(a: seq<Piece>, b: seq<Piece>, c: seq<Piece>)
    ensures Lexemes(Joined(a, b, c)) + [EOL_LEXEME] ==
            Lexemes(a) + [Lexeme(Token.And, "")] + Lexemes(b) + (Lexemes([Op(Token.And)] + c) + [EOL_LEXEME])
  {}

  /** The tokens of the third operand, from its `&&` on. */
  function Unread(c: seq<Piece>): (ts: Tokens)
    ensures ts[0].tok.And?
  {
    Lexemes([Op(Token.And)] + c) + [EOL_LEXEME]
  }

  lemma {:induction false} JoinedLex(a: seq<Piece>, b: seq<Piece>, c: seq<Piece>)
    requires Separable(a) && Separable(b) && Separable(c) && b != [] && c != [] && b[0].spaced && c[0].spaced
    ensures Lex(Spell(Joined(a, b, c))) ==
            Lexemes(a) + [Lexeme(Token.And, "")] + Lexemes(b) + Unread(c)
  {
    JoinedSeparable(a, b, c);
    SpelledLexes(Joined(a, b, c));
    JoinedLexemes(a, b, c);
  }

  lemma JoinedByAnd(src: string, l: seq<Lexeme>, left: Expr, r: seq<Lexeme>, right: Expr, rest: Tokens)
    requires IsCompare(l, left) && IsCompare(r, right) && rest[0].tok.And?
    requires Lex(src) == l + [Lexeme(Token.And, "")] + r + rest
    ensures Parse(src) == Some((Logic(left, Token.And, right), rest))
  {
    var w := l + [Lexeme(Token.And, "")] + r;
    assert w[..|l|] == l && w[|l| + 1..] == r;
    LaterConjunctsAreDropped(src, w, Logic(left, Token.And, right), |l|, rest);
  }

  /** Whatever the three operands of a chain are: its text parses without error into the tree of the
      first two, and the third one is left unread. */
  lemma {:induction false} ThirdConjunctIsUnread(a: seq<Piece>, left: Expr, b: seq<Piece>, right: Expr, c: seq<Piece>)
    requires Separable(a) && Separable(b) && Separable(c) && b != [] && c != [] && b[0].spaced && c[0].spaced
    requires IsCompare(Lexemes(a), left) && IsCompare(Lexemes(b), right)
    ensures Parse(Spell(Joined(a, b, c))) ==
            Some((Logic(left, Token.And, right), Unread(c)))
  {
    JoinedLex(a, b, c);
    JoinedByAnd(Spell(Joined(a, b, c)), Lexemes(a), left, Lexemes(b), right, Unread(c));
  }

  predicate IsIdentifier(name: string) {
    IsWord(name) && name != "nil"
  }

  lemma NilTestDerives(name: string)
    requires IsIdentifier(name)
    ensures IsCompare(Lexemes(NilTest(name)), Comp(Literal(name), Equals, NilLit))
    ensures Separable(NilTest(name))
  {
    MakeCompare([Lexeme(Str, name)], Literal(name), Lexeme(Equals, ""), [Lexeme(Nil, "nil")], NilLit);
    assert Lexemes(NilTest(name)) == [Lexeme(Str, name)] + [Lexeme(Equals, "")] + [Lexeme(Nil, "nil")];
  }

  lemma {:induction false} NilTestValue(name: string, m: Metrics)
    requires name in m ==> m[name].NumVar?
    ensures Eval(Comp(Literal(name), Equals, NilLit), m) == Success(Boolean(name !in m))
  {}

  lemma {:induction false} BothNilTestsValue(x: string, y: string, m: Metrics)
    requires x !in m && y !in m
    ensures Eval(Logic(Comp(Literal(x), Equals, NilLit), Token.And, Comp(Literal(y), Equals, NilLit)), m) == Success(Boolean(true))
  {
    NilTestValue(x, m);
    NilTestValue(y, m);
  }

  /** So `x == nil && y == nil && z == nil` holds although its third conjunct is false, whenever `z` is
      known and the other two are not. */
  lemma {:induction false} FalseThirdConjunctIsIgnored(x: string, y: string, z: string, m: Metrics)
    requires IsIdentifier(x) && IsIdentifier(y) && IsIdentifier(z)
    requires x !in m && y !in m && z in m && m[z].NumVar?
    ensures var p := Parse(Spell(Joined(NilTest(x), NilTest(y), NilTest(z))));
            && p.Some? && Evaluate(p.value.0, m).result
            && !Evaluate(Comp(Literal(z), Equals, NilLit), m).result
  {
    NilTestDerives(x);
    NilTestDerives(y);
    NilTestDerives(z);
    ThirdConjunctIsUnread(NilTest(x), Comp(Literal(x), Equals, NilLit), NilTest(y), Comp(Literal(y), Equals, NilLit), NilTest(z));
    BothNilTestsValue(x, y, m);
    NilTestValue(z, m);
  }
}

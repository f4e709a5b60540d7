/** What conditions mean: the value of every comparison and of `&&` and `||`, written out on numbers and
    truth values, and the example of the manual from its text to its value. */
module Conditions {
  import opened Wrappers
  import opened Syntax
  import opened Numbers
  import opened Lexing
  import opened Grammar
  import opened Parsing
  import opened ParserTheorems
  import opened Evaluation
  import opened Printing

  // ----- comparisons -----

  /** The right operands that stand for the number `c`: a numeral, a numeral with a minus sign, a numeral with
      a unit.  The unit has no influence. */
  predicate StandsFor(e: Expr, c: real) {
    || e == Num(c)
    || (e.Unary? && e.operand == Num(-c))
    || (e.Value? && e.quantity == Num(c))
  }

  /** The comparison of the variable `x` with the operand `e`. */
  function Test(x: string, op: Token, e: Expr): (t: Expr) {
    Comp(Literal(x), op, e)
  }

  /** A known number is compared with the constant as the operator says, without an error. */
  lemma {:induction false} KnownIsCompared(x: string, v: real, e: Expr, c: real, m: Metrics)
    requires x in m && m[x] == NumVar(v) && StandsFor(e, c)
    ensures Evaluate(Test(x, Less, e), m) == Verdict(v < c, None)
    ensures Evaluate(Test(x, Lte, e), m) == Verdict(v <= c, None)
    ensures Evaluate(Test(x, Greater, e), m) == Verdict(v > c, None)
    ensures Evaluate(Test(x, Gte, e), m) == Verdict(v >= c, None)
    ensures Evaluate(Test(x, Equals, e), m) == Verdict(v == c, None)
    ensures Evaluate(Test(x, NotEquals, e), m) == Verdict(v != c, None)
  {
    assert Eval(e, m) == Success(Amount(c));
    assert Eval(Literal(x), m) == Success(Amount(v));
  }

  /** An unknown variable makes every comparison with a number false, `!=` included, without an error. */
  lemma {:induction false} UnknownIsFalse(x: string, op: Token, e: Expr, c: real, m: Metrics)
    requires x !in m && StandsFor(e, c) && IsCompareOp(op)
    ensures Evaluate(Test(x, op, e), m) == Verdict(false, None)
  {
    assert Eval(e, m) == Success(Amount(c));
    assert Eval(Literal(x), m) == Success(Null);
  }

  /** A truth value is compared as if it were the number 0. */
  lemma {:induction false} TruthIsZero(x: string, b: bool, op: Token, e: Expr, c: real, m: Metrics)
    requires x in m && m[x] == BoolVar(b) && StandsFor(e, c) && IsCompareOp(op)
    ensures Evaluate(Test(x, op, e), m) == Evaluate(Test(x, op, e), m[x := NumVar(0.0)])
  {
    assert Eval(e, m) == Success(Amount(c)) && Eval(e, m[x := NumVar(0.0)]) == Success(Amount(c));
    assert Eval(Literal(x), m) == Success(Boolean(b)) && Eval(Literal(x), m[x := NumVar(0.0)]) == Success(Amount(0.0));
  }

  /** `== nil` and `!= nil` ask whether the variable is unknown or known; every other comparison with nil is an
      error. */
  lemma {:induction false} NilTests(x: string, m: Metrics)
    requires x in m ==> !m[x].OtherVar?
    ensures Evaluate(Test(x, Equals, NilLit), m) == Verdict(x !in m, None)
    ensures Evaluate(Test(x, NotEquals, NilLit), m) == Verdict(x in m, None)
    ensures forall op :: op in {Less, Lte, Greater, Gte} ==>
              Evaluate(Test(x, op, NilLit), m) == Verdict(false, Some(EvaluationFault(Test(x, op, NilLit), NotOnNil)))
  {
    assert Eval(NilLit, m) == Success(Null);
    assert Eval(Literal(x), m) == if x !in m then Success(Null) else if m[x].BoolVar? then Success(Boolean(m[x].b)) else Success(Amount(m[x].n));
  }

  /** A variable alone is a condition if it is a truth value, and else an error; so is one of a wrong type. */
  lemma {:induction false} VariableAlone(x: string, m: Metrics)
    ensures x in m && m[x].BoolVar? ==> Evaluate(Literal(x), m) == Verdict(m[x].b, None)
    ensures x in m && m[x].NumVar? ==> Evaluate(Literal(x), m) == Verdict(false, Some(EvaluationFault(Literal(x), NotBoolean(false))))
    ensures x in m && m[x].OtherVar? ==> Evaluate(Literal(x), m) == Verdict(false, Some(EvaluationFault(Literal(x), WrongType)))
    ensures x !in m ==> Evaluate(Literal(x), m) == Verdict(false, Some(EvaluationFault(Literal(x), NotBoolean(true))))
  {}

  // ----- conjunctions and disjunctions -----

  /** Conditions without errors are combined as the operators say. */
  lemma {:induction false} Connectives(l: Expr, r: Expr, m: Metrics)
    requires Evaluate(l, m).error.None? && Evaluate(r, m).error.None?
    ensures Evaluate(Logic(l, Token.And, r), m) == Verdict(Evaluate(l, m).result && Evaluate(r, m).result, None)
    ensures Evaluate(Logic(l, Token.Or, r), m) == Verdict(Evaluate(l, m).result || Evaluate(r, m).result, None)
  {}

  /** A number or nil in the place of a condition counts as false, but an operand that fails makes the whole
      fail with its error, the left one first, even where the other would decide. */
  lemma {:induction false} FaultsPass(l: Expr, op: Token, r: Expr, m: Metrics)
    requires op.And? || op.Or?
    ensures Eval(l, m).Failure? ==> Evaluate(Logic(l, op, r), m) == Evaluate(l, m)
    ensures Eval(l, m).Success? && Eval(r, m).Failure? ==> Evaluate(Logic(l, op, r), m) == Evaluate(r, m)
    ensures Eval(l, m).Success? && Eval(r, m).Success? ==>
              Evaluate(Logic(l, op, r), m) ==
              Verdict(if op.And? then Evaluate(l, m).result && Evaluate(r, m).result else Evaluate(l, m).result || Evaluate(r, m).result, None)
  {}

  /** Parentheses change nothing. */
  lemma {:induction false} GroupIsTransparent(e: Expr, m: Metrics)
    ensures Eval(Group(e), m) == Eval(e, m)
  {}

  // ----- an example from text to value -----

  /** The pieces of `cpu op digits%`. */
  function Threshold(op: Token, digits: string): (ps: seq<Piece>) {
    [Piece(true, Lexeme(Str, "cpu")), Op(op), Piece(true, Lexeme(Number, digits)), Piece(false, Lexeme(Str, "%"))]
  }

  /** The pieces of ` cpu < 5% || cpu > 40%`. */
  function Example(): (ps: seq<Piece>) {
    Threshold(Less, "5") + [Op(Token.Or)] + Threshold(Greater, "40")
  }

  lemma {:induction false} Names()
    ensures WellSpelled(Lexeme(Str, "cpu")) && WellSpelled(Lexeme(Str, "%"))
  {}

  lemma {:induction false} Numeral(n: nat, digits: string)
    requires n < 1000 && digits == Itoa(n)
    ensures WellSpelled(Lexeme(Number, digits)) && ParseNumber(digits) == Some(n as real)
  {
    IntegersReprint(n, (x: real) => "");
    assert (n as real).Floor == n;
  }

  lemma {:induction false} NamesAndNumerals()
    ensures WellSpelled(Lexeme(Str, "cpu")) && WellSpelled(Lexeme(Str, "%"))
    ensures WellSpelled(Lexeme(Number, "5")) && WellSpelled(Lexeme(Number, "40"))
    ensures ParseNumber("5") == Some(5.0) && ParseNumber("40") == Some(40.0)
  {
    Names();
    assert Itoa(4) == "4" && Itoa(5) == "5" && Itoa(40) == "4" + "0";
    Numeral(5, "5");
    Numeral(40, "40");
  }

  lemma {:induction false} ExampleLexemes()
    ensures Lexemes(Example()) == Lexemes(Threshold(Less, "5")) + [Lexeme(Token.Or, "")] + Lexemes(Threshold(Greater, "40"))
  {}

  lemma {:induction false} ThresholdSeparable(op: Token, digits: string)
    requires WellSpelled(Lexeme(op, "")) && WellSpelled(Lexeme(Number, digits))
    requires WellSpelled(Lexeme(Str, "cpu")) && WellSpelled(Lexeme(Str, "%"))
    ensures Separable(Threshold(op, digits))
  {
    var ps := Threshold(op, digits);
    assert Apart(ps[2].l, ps[3]);
    assert forall i :: 0 <= i < 3 ==> ps[i].spaced;
  }

  lemma {:induction false} BothSeparable(a: seq<Piece>, op: Token, b: seq<Piece>)
    requires Separable(a) && Separable(b) && b != [] && b[0].spaced && WellSpelled(Lexeme(op, ""))
    ensures Separable(a + [Op(op)] + b)
  {}

  lemma {:induction false} LexExample()
    ensures Lex(Spell(Example())) == Lexemes(Example()) + [EOL_LEXEME]
  {
    NamesAndNumerals();
    ThresholdSeparable(Less, "5");
    ThresholdSeparable(Greater, "40");
    BothSeparable(Threshold(Less, "5"), Token.Or, Threshold(Greater, "40"));
    SpelledLexes(Example());
  }

  lemma {:induction false} ThresholdDerives(op: Token, digits: string)
    requires IsCompareOp(op) && ParseNumber(digits).Some?
    ensures IsCompare(Lexemes(Threshold(op, digits)), Test("cpu", op, Value(Num(ParseNumber(digits).value), Literal("%"))))
  {
    var n, x, o, c, u := Num(ParseNumber(digits).value), [Lexeme(Str, "cpu")], Lexeme(op, ""), [Lexeme(Number, digits)], [Lexeme(Str, "%")];
    MakeValue(c, n, u, Literal("%"));
    MakeCompare(x, Literal("cpu"), o, c + u, Value(n, Literal("%")));
    assert Lexemes(Threshold(op, digits)) == x + [o] + (c + u);
  }

  /** The pieces spell the text of the manual. */
  lemma {:induction false} ExampleText()
    ensures Spell(Example()) == " cpu < 5%" + " ||" + " cpu > 40%"
  {
    var l, r := Threshold(Less, "5"), Threshold(Greater, "40");
    LessText();
    GreaterText();
    SpellAppend(l + [Op(Token.Or)], r);
    SpellAppend(l, [Op(Token.Or)]);
    SpellOp(Token.Or);
  }

  lemma {:induction false} LessText()
    ensures Spell(Threshold(Less, "5")) == " cpu < 5%"
  {
    ThresholdText(Less, "5", "<");
  }

  lemma {:induction false} GreaterText()
    ensures Spell(Threshold(Greater, "40")) == " cpu > 40%"
  {
    ThresholdText(Greater, "40", ">");
  }

  lemma {:induction false} ThresholdText(op: Token, digits: string, text: string)
    requires text == OperatorText(op) && IsCompareOp(op)
    ensures Spell(Threshold(op, digits)) == " cpu" + (" " + text + (" " + digits + "%"))
  {
    var ps := Threshold(op, digits);
    FirstText(ps);
    FirstText(ps[1..]);
    FirstText(ps[2..]);
    LastText(ps[3]);
    assert ps[3..] == [ps[3]] && ps[1..][1..] == ps[2..] && ps[2..][1..] == ps[3..];
    assert PieceText(ps[0]) == " cpu" && PieceText(ps[1]) == " " + text && PieceText(ps[2]) == " " + digits && PieceText(ps[3]) == "%";
  }

  lemma FirstText(ps: seq<Piece>)
    requires ps != []
    ensures Spell(ps) == PieceText(ps[0]) + Spell(ps[1..])
  {}

  lemma LastText(p: Piece)
    ensures Spell([p]) == PieceText(p)
  {
    assert [p][1..] == [];
  }

  function ExampleTree(): (e: Expr) {
    Logic(Test("cpu", Less, Value(Num(5.0), Literal("%"))), Token.Or, Test("cpu", Greater, Value(Num(40.0), Literal("%"))))
  }

  /** The condition of the manual is read whole and, for every value of `cpu`, holds below 5 and above 40. */
  lemma {:induction false} ExampleHolds(cpu: real)
    ensures Parse(Spell(Example())) == Some((ExampleTree(), [EOL_LEXEME]))
    ensures Evaluate(ExampleTree(), map["cpu" := NumVar(cpu)]) == Verdict(cpu < 5.0 || cpu > 40.0, None)
  {
    ExampleIsRead();
    var m, five, forty := map["cpu" := NumVar(cpu)], Value(Num(5.0), Literal("%")), Value(Num(40.0), Literal("%"));
    KnownIsCompared("cpu", cpu, five, 5.0, m);
    KnownIsCompared("cpu", cpu, forty, 40.0, m);
    Connectives(Test("cpu", Less, five), Test("cpu", Greater, forty), m);
  }

  lemma {:induction false} ExampleIsRead()
    ensures Parse(Spell(Example())) == Some((ExampleTree(), [EOL_LEXEME]))
  {
    var l, r, e := Lexemes(Threshold(Less, "5")), Lexemes(Threshold(Greater, "40")), ExampleTree();
    NamesAndNumerals();
    ThresholdDerives(Less, "5");
    ThresholdDerives(Greater, "40");
    LexExample();
    ExampleLexemes();
    CompareIsOr(l, e.first);
    CompareIsOr(r, e.second);
    MakeOr(l, e.first, Lexeme(Token.Or, ""), r, e.second);
    SentenceIsRead(Spell(Example()), l + [Lexeme(Token.Or, "")] + r, e);
  }

  lemma {:induction false} SentenceIsRead(src: string, w: seq<Lexeme>, e: Expr)
    requires Lex(src) == w + [EOL_LEXEME] && IsOr(w, e)
    ensures Parse(src) == Some((e, [EOL_LEXEME]))
  {
    assert Lex(src)[..|Lex(src)| - 1] == w;
    SentenceIsAccepted(src, e);
  }

  // ----- every comparison from text to value -----

  /** The pieces of `x op digits`. */
  function NumberTest(x: string, op: Token, digits: string): (ps: seq<Piece>) {
    [Piece(true, Lexeme(Str, x)), Op(op), Piece(true, Lexeme(Number, digits))]
  }

  lemma {:induction false} NumberTestDerives(x: string, op: Token, digits: string)
    requires IsCompareOp(op) && ParseNumber(digits).Some?
    ensures IsOr(Lexemes(NumberTest(x, op, digits)), Test(x, op, Num(ParseNumber(digits).value)))
  {
    var n, l, o, r := Num(ParseNumber(digits).value), [Lexeme(Str, x)], Lexeme(op, ""), [Lexeme(Number, digits)];
    MakeCompare(l, Literal(x), o, r, n);
    assert Lexemes(NumberTest(x, op, digits)) == l + [o] + r;
    CompareIsOr(Lexemes(NumberTest(x, op, digits)), Test(x, op, n));
  }

  lemma {:induction false} NumberTestSeparable(x: string, op: Token, digits: string)
    requires IsWord(x) && x != "nil" && IsNumeral(digits) && IsCompareOp(op)
    ensures Separable(NumberTest(x, op, digits))
  {}

  /** For each of the six operators, every name and every numeral: the text is read whole, and its value is that
      of the comparison. */
  lemma {:induction false} NumberTestHolds(x: string, op: Token, digits: string, v: real, m: Metrics)
    requires IsWord(x) && x != "nil" && IsNumeral(digits) && ParseNumber(digits).Some? && x in m && m[x] == NumVar(v)
    requires op == Less || op == Lte || op == Greater || op == Gte || op == Equals || op == NotEquals
    ensures var e, c := Test(x, op, Num(ParseNumber(digits).value)), ParseNumber(digits).value;
            && Parse(Spell(NumberTest(x, op, digits))) == Some((e, [EOL_LEXEME]))
            && Evaluate(e, m) == Verdict(match op
                                         case Less => v < c
                                         case Lte => v <= c
                                         case Greater => v > c
                                         case Gte => v >= c
                                         case Equals => v == c
                                         case _ => v != c, None)
  {
    var c := ParseNumber(digits).value;
    NumberTestDerives(x, op, digits);
    NumberTestSeparable(x, op, digits);
    SpelledLexes(NumberTest(x, op, digits));
    SentenceIsRead(Spell(NumberTest(x, op, digits)), Lexemes(NumberTest(x, op, digits)), Test(x, op, Num(c)));
    KnownIsCompared(x, v, Num(c), c, m);
    Comparisons(op);
  }
}

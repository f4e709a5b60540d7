/** The `String` methods of the trees (expr.go) and the round trip text -> tree -> text -> tree. */
module Printing {
  import opened Wrappers
  import opened Syntax
  import opened Numbers
  import opened Lexing
  import opened Grammar
  import opened Parsing
  import opened ParserTheorems
  import opened Evaluation

  /** `fmt.Sprintf("( %s %s %s )", l, op, r)`. */
  function Infix(l: string, op: string, r: string): (s: string) {
    "( " + l + " " + op + " " + r + " )"
  }

  /** `Expr.String`.  A group prints as its content: comparisons and logical nodes bring their own
      parentheses. */
  function Print(e: Expr, fmt: real -> string): (s: string) {
    match e
    case Literal(name) => name
    case NilLit => "nil"
    case Num(x) => NumText(x, fmt)
    case Unary(op, x) => OperatorText(op) + Print(x, fmt)
    case Value(q, u) => Print(q, fmt) + " " + Print(u, fmt)
    case Comp(l, op, r) => Infix(Print(l, fmt), OperatorText(op), Print(r, fmt))
    case Logic(l, op, r) => Infix(Print(l, fmt), OperatorText(op), Print(r, fmt))
    case Group(x) => Print(x, fmt)
  }

  /** A lexeme of the printed text, with or without a space in front. */
  datatype Piece = Piece(spaced: bool, l: Lexeme)

  function Op(t: Token): (p: Piece) {
    Piece(true, Lexeme(t, ""))
  }

  /** The pieces of the printed text: only the digits after a minus sign follow without a space. */
  function Pieces(e: Expr, fmt: real -> string): (ps: seq<Piece>) {
    match e
    case Literal(name) => [Piece(true, Lexeme(Str, name))]
    case NilLit => [Piece(true, Lexeme(Nil, "nil"))]
    case Num(x) => [Piece(true, Lexeme(Number, NumText(x, fmt)))]
    case Unary(op, x) => [Op(op), Piece(false, Lexeme(Number, Print(x, fmt)))]
    case Value(q, u) => Pieces(q, fmt) + Pieces(u, fmt)
    case Comp(l, op, r) => [Op(LParen)] + (Pieces(l, fmt) + [Op(op)] + Pieces(r, fmt)) + [Op(RParen)]
    case Logic(l, op, r) => [Op(LParen)] + (Pieces(l, fmt) + [Op(op)] + Pieces(r, fmt)) + [Op(RParen)]
    case Group(x) => Pieces(x, fmt)
  }

  function Spell(ps: seq<Piece>): (s: string) {
    if ps == [] then ""
    else PieceText(ps[0]) + Spell(ps[1..])
  }

  function PieceText(p: Piece): (s: string) {
    (if p.spaced then " " else "") + Spelling(p.l)
  }

  function Lexemes(ps: seq<Piece>): (ts: seq<Lexeme>)
    ensures |ts| == |ps| && forall i :: 0 <= i < |ps| ==> ts[i] == ps[i].l
  {
    seq(|ps|, i requires 0 <= i < |ps| => ps[i].l)
  }

  /** The piece does not continue the lexeme in front of it. */
  predicate Apart(l: Lexeme, p: Piece) {
    p.spaced || Spelling(p.l) == "" || !Absorbs(l.tok, Spelling(p.l)[0])
  }

  /** Pieces that the scanner takes apart again: all spelled, and none glued to a token that could
      absorb it. */
  predicate Separable(ps: seq<Piece>) {
    && (forall i :: 0 <= i < |ps| ==> WellSpelled(ps[i].l))
    && (forall i :: 0 < i < |ps| ==> Apart(ps[i - 1].l, ps[i]))
  }

  /** Every name can be read as an identifier and every constant as itself. */
  predicate Legible(e: Expr, fmt: real -> string) {
    match e
    case Literal(name) => IsWord(name) && name != "nil"
    case NilLit => true
    case Num(x) => Reprints(x, fmt)
    case Unary(op, x) => Legible(x, fmt)
    case Value(q, u) => Legible(q, fmt) && Legible(u, fmt)
    case Comp(l, _, r) => Legible(l, fmt) && Legible(r, fmt)
    case Logic(l, _, r) => Legible(l, fmt) && Legible(r, fmt)
    case Group(x) => Legible(x, fmt)
  }

  /** The tree that reading the printed text gives: a group around every comparison and logical node,
      and no other. */
  function Regroup(e: Expr): (r: Expr) {
    match e
    case Comp(l, op, r) => Group(Comp(Regroup(l), op, r))
    case Logic(l, op, r) => Group(Logic(Regroup(l), op, Regroup(r)))
    case Group(x) => Regroup(x)
    case _ => e
  }

  function Ungroup(e: Expr): (r: Expr) {
    match e
    case Comp(l, op, r) => Comp(Ungroup(l), op, r)
    case Logic(l, op, r) => Logic(Ungroup(l), op, Ungroup(r))
    case Group(x) => Ungroup(x)
    case _ => e
  }

  predicate GroupFree(e: Expr) {
    match e
    case Comp(l, _, _) => GroupFree(l)
    case Logic(l, _, r) => GroupFree(l) && GroupFree(r)
    case Group(_) => false
    case _ => true
  }

  /** Two trees without groups are the same up to groups only if they are the same, and a group counts as its
      content. */
  lemma {:induction false} UngroupExactly(e: Expr)
    ensures GroupFree(Ungroup(e)) && Ungroup(Group(e)) == Ungroup(e)
    ensures GroupFree(e) ==> Ungroup(e) == e
  {
    match e
    case Comp(l, _, _) => UngroupExactly(l);
    case Logic(l, _, r) => UngroupExactly(l); UngroupExactly(r);
    case Group(x) => UngroupExactly(x);
    case _ =>
  }

  // ----- lexing printed text -----

  lemma {:induction false} LexOne(blanks: string, l: Lexeme, rest: string)
    requires WellSpelled(l) && (rest == "" || !Absorbs(l.tok, rest[0]))
    requires forall i :: 0 <= i < |blanks| ==> IsBlank(blanks[i])
    ensures Lex(blanks + Spelling(l) + rest) == [l] + Lex(rest)
  {
    LongestMatchIsScanned(blanks + Spelling(l) + rest, blanks, l, rest);
  }

  lemma {:induction false} LexSpace(s: string)
    ensures Lex(" " + s) == Lex(s)
  {
    var t := " " + s;
    assert t[1..] == s;
    assert SkipBlanks(t) == SkipBlanks(s);
  }

  lemma NotAbsorbed(l: Lexeme, ps: seq<Piece>)
    requires ps == [] || (WellSpelled(ps[0].l) && Apart(l, ps[0]))
    ensures Spell(ps) == "" || !Absorbs(l.tok, Spell(ps)[0])
  {}

  lemma {:induction false} LexPiece(p: Piece, rest: seq<Piece>)
    requires WellSpelled(p.l) && (rest == [] || (WellSpelled(rest[0].l) && Apart(p.l, rest[0])))
    ensures Lex(PieceText(p) + Spell(rest)) == [p.l] + Lex(Spell(rest))
  {
    NotAbsorbed(p.l, rest);
    LexOne(if p.spaced then " " else "", p.l, Spell(rest));
  }

  lemma LexEmpty()
    ensures Lex("") == [EOL_LEXEME]
  {}

  function Stream(ps: seq<Piece>): (ts: seq<Lexeme>) {
    if ps == [] then [EOL_LEXEME] else [ps[0].l] + Stream(ps[1..])
  }

  lemma {:induction false} LexSpelled(ps: seq<Piece>)
    requires Separable(ps)
    ensures Lex(Spell(ps)) == Stream(ps)
  {
    if ps == [] {
      LexEmpty();
    } else {
      LexSpelled(ps[1..]);
      LexPiece(ps[0], ps[1..]);
    }
  }

  lemma {:induction false} StreamIsLexemes(ps: seq<Piece>)
    ensures Stream(ps) == Lexemes(ps) + [EOL_LEXEME]
  {
    if ps == [] {
    } else {
      StreamIsLexemes(ps[1..]);
      assert Lexemes(ps) == [ps[0].l] + Lexemes(ps[1..]);
    }
  }

  /** Separable pieces are scanned as they are. */
  lemma {:induction false} SpelledLexes(ps: seq<Piece>)
    requires Separable(ps)
    ensures Lex(Spell(ps)) == Lexemes(ps) + [EOL_LEXEME]
  {
    LexSpelled(ps);
    StreamIsLexemes(ps);
  }

  lemma Assoc<T>(a: seq<T>, b: seq<T>, c: seq<T>)
    ensures a + (b + c) == a + b + c
  {}

  lemma {:induction false} SpellAppend(a: seq<Piece>, b: seq<Piece>)
    ensures Spell(a + b) == Spell(a) + Spell(b)
  {
    if a == [] {
      assert a + b == b;
    } else {
      assert (a + b)[0] == a[0] && (a + b)[1..] == a[1..] + b;
      SpellAppend(a[1..], b);
      Assoc(PieceText(a[0]), Spell(a[1..]), Spell(b));
    }
  }

  lemma SpellOp(op: Token)
    ensures Spell([Op(op)]) == " " + Spelling(Lexeme(op, ""))
  {}

  lemma SpellParens(l: seq<Piece>, op: Token, r: seq<Piece>)
    requires IsCompareOp(op) || op.And? || op.Or?
    ensures Spell([Op(LParen)] + (l + [Op(op)] + r) + [Op(RParen)]) ==
            " (" + (Spell(l) + (" " + OperatorText(op)) + Spell(r)) + " )"
  {
    SpellMiddle(l, op, r);
    SpellEnclosed(l + [Op(op)] + r);
  }

  lemma SpellEnclosed(w: seq<Piece>)
    ensures Spell([Op(LParen)] + w + [Op(RParen)]) == " (" + Spell(w) + " )"
  {
    SpellAppend([Op(LParen)], w);
    SpellAppend([Op(LParen)] + w, [Op(RParen)]);
    SpellOp(LParen);
    SpellOp(RParen);
  }

  lemma SpellMiddle(l: seq<Piece>, op: Token, r: seq<Piece>)
    requires IsCompareOp(op) || op.And? || op.Or?
    ensures Spell(l + [Op(op)] + r) == Spell(l) + (" " + OperatorText(op)) + Spell(r)
  {
    SpellAppend(l, [Op(op)]);
    SpellAppend(l + [Op(op)], r);
    SpellOp(op);
  }

  /** The spaces of an infix text belong to the pieces that follow them. */
  lemma InfixSpaced(l: string, op: string, r: string)
    ensures " " + Infix(l, op, r) == " (" + ((" " + l) + (" " + op) + (" " + r)) + " )"
  {}

  lemma SignIsSpelled(e: Expr, fmt: real -> string)
    requires e.Unary? && e.uop.Dec?
    ensures " " + Print(e, fmt) == Spell(Pieces(e, fmt))
  {
    var x := e.operand;
    var last := [Piece(false, Lexeme(Number, Print(x, fmt)))];
    assert last[1..] == [] && Pieces(e, fmt)[1..] == last;
    assert Spell(last) == Print(x, fmt);
    Assoc(" ", "-", Print(x, fmt));
  }

  lemma {:induction false} PrintIsSpelled(e: Expr, fmt: real -> string)
    requires IsTree(e) || IsOperandTree(e)
    ensures " " + Print(e, fmt) == Spell(Pieces(e, fmt))
  {
    match e
    case Literal(_) => assert Pieces(e, fmt)[1..] == [];
    case NilLit => assert Pieces(e, fmt)[1..] == [];
    case Num(_) => assert Pieces(e, fmt)[1..] == [];
    case Unary(_, _) => SignIsSpelled(e, fmt);
    case Value(q, u) =>
      PrintIsSpelled(q, fmt);
      PrintIsSpelled(u, fmt);
      SpellAppend(Pieces(q, fmt), Pieces(u, fmt));
      Assoc(" ", Print(q, fmt) + " ", Print(u, fmt));
      Assoc(" ", Print(q, fmt), " ");
      Assoc(" " + Print(q, fmt), " ", Print(u, fmt));
    case Comp(l, op, r) =>
      PrintIsSpelled(l, fmt);
      PrintIsSpelled(r, fmt);
      ParensPrinted(Print(l, fmt), Pieces(l, fmt), op, Print(r, fmt), Pieces(r, fmt));
    case Logic(l, op, r) =>
      PrintIsSpelled(l, fmt);
      PrintIsSpelled(r, fmt);
      ParensPrinted(Print(l, fmt), Pieces(l, fmt), op, Print(r, fmt), Pieces(r, fmt));
    case Group(x) => PrintIsSpelled(x, fmt);
  }

  lemma ParensPrinted(l: string, ll: seq<Piece>, op: Token, r: string, rr: seq<Piece>)
    requires " " + l == Spell(ll) && " " + r == Spell(rr) && (IsCompareOp(op) || op.And? || op.Or?)
    ensures " " + Infix(l, OperatorText(op), r) == Spell([Op(LParen)] + (ll + [Op(op)] + rr) + [Op(RParen)])
  {
    SpellParens(ll, op, rr);
    InfixSpaced(l, OperatorText(op), r);
  }

  lemma {:induction false} PiecesSeparable(e: Expr, fmt: real -> string)
    requires (IsTree(e) || IsOperandTree(e)) && Legible(e, fmt)
    ensures var ps := Pieces(e, fmt); Separable(ps) && ps != [] && ps[0].spaced
  {
    match e
    case Value(q, u) => PiecesSeparable(q, fmt); PiecesSeparable(u, fmt);
    case Comp(l, op, r) =>
      PiecesSeparable(l, fmt);
      PiecesSeparable(r, fmt);
      SeparableParens(Pieces(l, fmt), op, Pieces(r, fmt));
    case Logic(l, op, r) =>
      PiecesSeparable(l, fmt);
      PiecesSeparable(r, fmt);
      SeparableParens(Pieces(l, fmt), op, Pieces(r, fmt));
    case Group(x) => PiecesSeparable(x, fmt);
    case _ =>
  }

  lemma {:induction false} SeparableParens(l: seq<Piece>, op: Token, r: seq<Piece>)
    requires l != [] && l[0].spaced && r != [] && r[0].spaced
    requires Separable(l) && Separable(r) && (IsCompareOp(op) || op.And? || op.Or?)
    ensures Separable([Op(LParen)] + (l + [Op(op)] + r) + [Op(RParen)])
  {}

  // ----- parsing printed text -----

  lemma ConstantDerives(e: Expr, fmt: real -> string)
    requires IsConstantTree(e) && Legible(e, fmt)
    ensures IsUnary(Lexemes(Pieces(e, fmt)), e)
  {
    if e.Unary? {
      MakeUnary(Lexeme(Dec, ""), [Lexeme(Number, Print(e.operand, fmt))], e.operand);
      assert Lexemes(Pieces(e, fmt)) == [Lexeme(Dec, "")] + [Lexeme(Number, Print(e.operand, fmt))];
    }
  }

  lemma OperandDerives(e: Expr, fmt: real -> string)
    requires IsOperandTree(e) && Legible(e, fmt)
    ensures IsValue(Lexemes(Pieces(e, fmt)), e)
  {
    if e.Value? {
      ConstantDerives(e.quantity, fmt);
      MakeValue(Lexemes(Pieces(e.quantity, fmt)), e.quantity, Lexemes(Pieces(e.unit, fmt)), e.unit);
      assert Lexemes(Pieces(e, fmt)) == Lexemes(Pieces(e.quantity, fmt)) + Lexemes(Pieces(e.unit, fmt));
    } else {
      ConstantDerives(e, fmt);
    }
  }

  lemma LexemesOfParens(l: seq<Piece>, op: Token, r: seq<Piece>)
    ensures Lexemes([Op(LParen)] + (l + [Op(op)] + r) + [Op(RParen)]) ==
            [Lexeme(LParen, "")] + (Lexemes(l) + [Lexeme(op, "")] + Lexemes(r)) + [Lexeme(RParen, "")]
  {}

  lemma {:induction false} PrintedDerives(e: Expr, fmt: real -> string)
    requires IsTree(e) && Legible(e, fmt)
    ensures IsPrimary(Lexemes(Pieces(e, fmt)), Regroup(e))
  {
    match e
    case Comp(l, op, r) =>
      PrintedDerives(l, fmt);
      OperandDerives(r, fmt);
      ComparisonDerives(Lexemes(Pieces(l, fmt)), Regroup(l), op, Lexemes(Pieces(r, fmt)), r);
      LexemesOfParens(Pieces(l, fmt), op, Pieces(r, fmt));
    case Logic(l, op, r) =>
      PrintedDerives(l, fmt);
      PrintedDerives(r, fmt);
      LogicDerives(Lexemes(Pieces(l, fmt)), Regroup(l), op, Lexemes(Pieces(r, fmt)), Regroup(r));
      LexemesOfParens(Pieces(l, fmt), op, Pieces(r, fmt));
    case Group(x) => PrintedDerives(x, fmt);
    case _ =>
  }

  lemma ComparisonDerives(l: seq<Lexeme>, left: Expr, op: Token, r: seq<Lexeme>, right: Expr)
    requires IsPrimary(l, left) && IsCompareOp(op) && IsValue(r, right)
    ensures IsPrimary([Lexeme(LParen, "")] + (l + [Lexeme(op, "")] + r) + [Lexeme(RParen, "")], Group(Comp(left, op, right)))
  {
    var w, t := l + [Lexeme(op, "")] + r, Comp(left, op, right);
    MakeCompare(l, left, Lexeme(op, ""), r, right);
    CompareIsOr(w, t);
    MakeGroup(Lexeme(LParen, ""), w, Lexeme(RParen, ""), t);
  }

  lemma LogicDerives(l: seq<Lexeme>, left: Expr, op: Token, r: seq<Lexeme>, right: Expr)
    requires IsPrimary(l, left) && (op.And? || op.Or?) && IsPrimary(r, right)
    ensures IsPrimary([Lexeme(LParen, "")] + (l + [Lexeme(op, "")] + r) + [Lexeme(RParen, "")], Group(Logic(left, op, right)))
  {
    var w, t := l + [Lexeme(op, "")] + r, Logic(left, op, right);
    CompareIsOr(l, left);
    CompareIsOr(r, right);
    if op.And? {
      MakeAnd(l, left, Lexeme(op, ""), r, right);
    } else {
      MakeOr(l, left, Lexeme(op, ""), r, right);
    }
    assert IsOr(w, t);
    MakeGroup(Lexeme(LParen, ""), w, Lexeme(RParen, ""), t);
  }

  lemma CompareIsOr(w: seq<Lexeme>, e: Expr)
    requires IsCompare(w, e)
    ensures IsAnd(w, e) && IsOr(w, e)
  {}

  // ----- groups carry no meaning -----

  function UngroupFault(f: Fault): (f': Fault) {
    if f.EvaluationFault? then EvaluationFault(Ungroup(f.at), f.why) else f
  }

  /** The same value, or the same fault up to groups in the expression it names. */
  predicate SameOutcome(r: Result<Val, Fault>, r': Result<Val, Fault>) {
    match (r, r')
    case (Success(v), Success(v')) => v == v'
    case (Failure(f), Failure(f')) => UngroupFault(f) == UngroupFault(f')
    case _ => false
  }

  /** The same result with the same error, up to groups in the expression it names. */
  predicate SameVerdict(v: Verdict, v': Verdict) {
    && v.result == v'.result && (v.error.Some? <==> v'.error.Some?)
    && (v.error.Some? ==> UngroupFault(v.error.value) == UngroupFault(v'.error.value))
  }

  lemma {:induction false} RegroupKeepsMeaning(e: Expr, m: Metrics, fmt: real -> string)
    ensures SameOutcome(Eval(Regroup(e), m), Eval(e, m))
    ensures Print(Regroup(e), fmt) == Print(e, fmt)
    ensures Ungroup(Regroup(e)) == Ungroup(e)
  {
    match e
    case Comp(l, op, r) =>
      RegroupKeepsMeaning(l, m, fmt);
      CompareKeepsMeaning(Regroup(l), l, op, r, m);
      assert Eval(Regroup(e), m) == Eval(Comp(Regroup(l), op, r), m);
    case Logic(l, op, r) =>
      RegroupKeepsMeaning(l, m, fmt);
      RegroupKeepsMeaning(r, m, fmt);
      LogicKeepsMeaning(Regroup(l), Regroup(r), l, op, r, m);
      assert Eval(Regroup(e), m) == Eval(Logic(Regroup(l), op, Regroup(r)), m);
    case Group(x) => RegroupKeepsMeaning(x, m, fmt);
    case _ =>
  }

  lemma {:induction false} CompareKeepsMeaning(l': Expr, l: Expr, op: Token, r: Expr, m: Metrics)
    requires SameOutcome(Eval(l', m), Eval(l, m)) && Ungroup(l') == Ungroup(l)
    ensures SameOutcome(Eval(Comp(l', op, r), m), Eval(Comp(l, op, r), m))
  {}

  lemma {:induction false} VerdictFollows(e': Expr, e: Expr, m: Metrics)
    requires SameOutcome(Eval(e', m), Eval(e, m)) && Ungroup(e') == Ungroup(e)
    ensures SameVerdict(Evaluate(e', m), Evaluate(e, m))
  {}

  lemma {:induction false} LogicKeepsMeaning(l': Expr, r': Expr, l: Expr, op: Token, r: Expr, m: Metrics)
    requires SameOutcome(Eval(l', m), Eval(l, m)) && SameOutcome(Eval(r', m), Eval(r, m))
    requires Ungroup(l') == Ungroup(l) && Ungroup(r') == Ungroup(r)
    ensures SameOutcome(Eval(Logic(l', op, r'), m), Eval(Logic(l, op, r), m))
  {}

  // ----- main results -----

  lemma {:induction false} PrintedLexes(e: Expr, fmt: real -> string)
    requires IsTree(e) && Legible(e, fmt)
    ensures Lex(Print(e, fmt)) == Lexemes(Pieces(e, fmt)) + [EOL_LEXEME]
  {
    PiecesSeparable(e, fmt);
    SpelledLexes(Pieces(e, fmt));
    PrintIsSpelled(e, fmt);
    LexSpace(Print(e, fmt));
  }

  /** Printing and reading back: the parser accepts the whole printed text and returns the same tree up
      to groups.  It evaluates alike under every metrics map and prints as the same text. */
  lemma {:induction false} RoundTrip(e: Expr, fmt: real -> string, m: Metrics)
    requires IsTree(e) && Legible(e, fmt)
    ensures Parse(Print(e, fmt)) == Some((Regroup(e), [EOL_LEXEME]))
    ensures Ungroup(Regroup(e)) == Ungroup(e)
    ensures SameVerdict(Evaluate(Regroup(e), m), Evaluate(e, m))
    ensures Print(Regroup(e), fmt) == Print(e, fmt)
  {
    var s, ts := Print(e, fmt), Lexemes(Pieces(e, fmt));
    PrintedLexes(e, fmt);
    PrintedDerives(e, fmt);
    CompareIsOr(ts, Regroup(e));
    assert Lex(s)[..|Lex(s)| - 1] == ts;
    SentenceIsAccepted(s, Regroup(e));
    RegroupKeepsMeaning(e, m, fmt);
    VerdictFollows(Regroup(e), e, m);
  }

  /** The trees with integer constants below 2^63. */
  predicate IntegerConstants(e: Expr) {
    match e
    case Num(x) => x == x.Floor as real && x.Floor < 0x8000_0000_0000_0000
    case Unary(_, x) => IntegerConstants(x)
    case Value(q, u) => IntegerConstants(q) && IntegerConstants(u)
    case Comp(l, _, r) => IntegerConstants(l) && IntegerConstants(r)
    case Logic(l, _, r) => IntegerConstants(l) && IntegerConstants(r)
    case Group(x) => IntegerConstants(x)
    case _ => true
  }

  /** Names are identifiers and constants are not negative: true of every parsed tree. */
  predicate WellNamed(e: Expr) {
    match e
    case Literal(name) => IsWord(name) && name != "nil"
    case Num(x) => x >= 0.0
    case Unary(_, x) => WellNamed(x)
    case Value(q, u) => WellNamed(q) && WellNamed(u)
    case Comp(l, _, r) => WellNamed(l) && WellNamed(r)
    case Logic(l, _, r) => WellNamed(l) && WellNamed(r)
    case Group(x) => WellNamed(x)
    case NilLit => true
  }

  lemma {:induction false} IntegersAreLegible(e: Expr, fmt: real -> string)
    requires WellNamed(e) && IntegerConstants(e)
    ensures Legible(e, fmt)
  {
    match e
    case Num(x) => IntegersReprint(x.Floor, fmt);
    case Unary(_, x) => IntegersAreLegible(x, fmt);
    case Value(q, u) => IntegersAreLegible(q, fmt); IntegersAreLegible(u, fmt);
    case Comp(l, _, r) => IntegersAreLegible(l, fmt); IntegersAreLegible(r, fmt);
    case Logic(l, _, r) => IntegersAreLegible(l, fmt); IntegersAreLegible(r, fmt);
    case Group(x) => IntegersAreLegible(x, fmt);
    case _ =>
  }

  predicate AllSpelled(w: seq<Lexeme>) {
    forall i :: 0 <= i < |w| ==> WellSpelled(w[i])
  }

  lemma {:induction false} PrimaryNamed(w: seq<Lexeme>, e: Expr)
    requires IsPrimary(w, e) && AllSpelled(w)
    ensures WellNamed(e)
    decreases e, 0
  {
    if e.Group? {
      OrNamed(w[1..|w| - 1], e.inner);
    }
  }

  lemma ValueNamed(w: seq<Lexeme>, e: Expr)
    requires IsValue(w, e) && AllSpelled(w)
    ensures WellNamed(e)
  {
    if e.Value? {
      assert WellNamed(e.quantity);
      assert e.unit == Literal(w[|w| - 1].val);
    }
  }

  lemma {:induction false} CompareNamed(w: seq<Lexeme>, e: Expr)
    requires IsCompare(w, e) && AllSpelled(w)
    ensures WellNamed(e)
    decreases e, 1
  {
    if IsPrimary(w, e) {
      PrimaryNamed(w, e);
    } else {
      var k :| 0 <= k < |w| && ComparesAt(w, e, k);
      PrimaryNamed(w[..k], e.left);
      ValueNamed(w[k + 1..], e.right);
    }
  }

  lemma {:induction false} AndNamed(w: seq<Lexeme>, e: Expr)
    requires IsAnd(w, e) && AllSpelled(w)
    ensures WellNamed(e)
    decreases e, 2
  {
    if IsCompare(w, e) {
      CompareNamed(w, e);
    } else {
      var k :| 0 <= k < |w| && JoinsAt(w, e, k);
      CompareNamed(w[..k], e.first);
      CompareNamed(w[k + 1..], e.second);
    }
  }

  lemma {:induction false} OrNamed(w: seq<Lexeme>, e: Expr)
    requires IsOr(w, e) && AllSpelled(w)
    ensures WellNamed(e)
    decreases e, 3
  {
    if IsAnd(w, e) {
      AndNamed(w, e);
    } else {
      var k :| 0 <= k < |w| && AltersAt(w, e, k);
      OrNamed(w[..k], e.first);
      AndNamed(w[k + 1..], e.second);
    }
  }

  lemma TextIsNamed(src: string)
    requires Parse(src).Some?
    ensures WellNamed(Parse(src).value.0)
  {
    var (e, rest) := Parse(src).value;
    ParseSound(src);
    LexShape(src);
    OrNamed(Consumed(Lex(src), rest), e);
  }

  lemma ParsedIsNamed(e: Expr)
    requires IsParsed(e)
    ensures WellNamed(e)
  {
    var src: string :| Parse(src).Some? && Parse(src).value.0 == e;
    TextIsNamed(src);
  }

  /** For every expression text the parser accepts with integer constants: the text printed for its
      tree parses, to the end, into the same tree up to groups, with the same value everywhere. */
  lemma {:induction false} ParsePrintParse(e: Expr, fmt: real -> string, m: Metrics)
    requires IsParsed(e) && IntegerConstants(e)
    ensures var p := Parse(Print(e, fmt));
            && p.Some? && p.value.1 == [EOL_LEXEME]
            && Ungroup(p.value.0) == Ungroup(e)
            && SameVerdict(Evaluate(p.value.0, m), Evaluate(e, m))
            && Print(p.value.0, fmt) == Print(e, fmt)
  {
    ParsedTree(e);
    ParsedIsNamed(e);
    IntegersAreLegible(e, fmt);
    RoundTrip(e, fmt, m);
  }

  // ----- a condition that can stop holding -----

  /** The printed text of a comparison and of a conjunction, as it is written. */
  lemma {:induction false} PrintedForms(x: string, y: string, fmt: real -> string)
    ensures Print(Comp(Literal(x), Gte, NilLit), fmt) == "( " + x + " " + ">=" + " " + "nil" + " )"
    ensures Print(Group(Logic(Literal(x), Token.And, Literal(y))), fmt) == "( " + x + " " + "&&" + " " + y + " )"
    ensures Print(Value(Num(5.0), Literal(x)), fmt) == "5" + " " + x
    ensures Print(Unary(Dec, Num(5.0)), fmt) == "-" + "5"
  {
    assert (5.0).Floor == 5 && Itoa(5) == "5" && Print(Num(5.0), fmt) == "5";
    assert Print(Literal(x), fmt) == x && Print(Literal(y), fmt) == y && Print(NilLit, fmt) == "nil";
    assert Print(Logic(Literal(x), Token.And, Literal(y)), fmt) == Infix(x, "&&", y);
  }

  /** With an `== nil` test a condition can stop holding when its metric becomes known: the text
      "( x == nil )" is true without `x` and false with it. */
  lemma {:induction false} NilTestIsNotMonotone(fmt: real -> string)
    ensures var e := Comp(Literal("x"), Equals, NilLit);
            && Parse(Print(e, fmt)) == Some((Group(e), [EOL_LEXEME]))
            && Evaluate(Group(e), map[]).result && !Evaluate(Group(e), map["x" := NumVar(0.0)]).result
  {
    RoundTrip(Comp(Literal("x"), Equals, NilLit), fmt, map[]);
  }
}

/** The recursive-descent parser (internal/configuration/interpreter/parser.go): its reference
    functions on token lists, and the parser object that pulls tokens from a `Lexer`.  A panic of the
    source is a failed result. */
module Parsing {
  import opened Wrappers
  import opened Syntax
  import opened Numbers
  import opened Lexing

  type Tokens = ts: seq<Lexeme> | ts != [] witness [EOL_LEXEME]

  /** A tree and the tokens from the current one on. */
  type Parsed = Option<(Expr, Tokens)>

  /** `parser.next`: an ILLEGAL token is a panic. */
  function Advance(ts: Tokens): (r: Option<Tokens>)
    ensures r.Some? ==> |r.value| == |ts| - 1 && r.value == ts[1..]
  {
    if |ts| >= 2 && !ts[1].tok.Illegal? then Some(ts[1..]) else None
  }

  predicate Shorter(r: Parsed, ts: Tokens) {
    r.Some? ==> |r.value.1| < |ts|
  }

  function ParsePrimary(ts: Tokens): (r: Parsed)
    ensures Shorter(r, ts)
    decreases |ts|, 0
  {
    match ts[0].tok
    case Str =>
      var rest :- Advance(ts);
      Some((Literal(ts[0].val), rest))
    case Nil =>
      var rest :- Advance(ts);
      Some((NilLit, rest))
    case Number =>
      var v :- ParseNumber(ts[0].val);
      var rest :- Advance(ts);
      Some((Num(v), rest))
    case LParen =>
      var body :- Advance(ts);
      var (e, close) :- ParseOr(body);
      if close[0].tok.RParen? then
        var rest :- Advance(close);
        Some((Group(e), rest))
      else None
    case _ => None
  }

  function ParseUnary(ts: Tokens): (r: Parsed)
    ensures Shorter(r, ts)
    decreases |ts|, 1
  {
    if ts[0].tok.Dec? then
      var number :- Advance(ts);
      if number[0].tok.Number? then
        var (e, rest) :- ParsePrimary(number);
        Some((Unary(Dec, e), rest))
      else None
    else if ts[0].tok.Number? || ts[0].tok.Nil? then ParsePrimary(ts)
    else None
  }

  function ParseValue(ts: Tokens): (r: Parsed)
    ensures Shorter(r, ts)
    decreases |ts|, 2
  {
    var (e, rest) :- ParseUnary(ts);
    if rest[0].tok.Str? then
      var (unit, rest') :- ParsePrimary(rest);
      Some((Value(e, unit), rest'))
    else Some((e, rest))
  }

  function ParseCompare(ts: Tokens): (r: Parsed)
    ensures Shorter(r, ts)
    decreases |ts|, 3
  {
    var (e, rest) :- ParsePrimary(ts);
    if IsCompareOp(rest[0].tok) then
      var operand :- Advance(rest);
      var (right, rest') :- ParseValue(operand);
      Some((Comp(e, rest[0].tok, right), rest'))
    else Some((e, rest))
  }

  /** The `for` of the source returns in its first iteration: at most one `&&`, and after it the
      check on the next token is skipped. */
  function ParseAnd(ts: Tokens): (r: Parsed)
    ensures Shorter(r, ts)
    decreases |ts|, 4
  {
    var (e, rest) :- ParseCompare(ts);
    if rest[0].tok.And? then
      var operand :- Advance(rest);
      var (right, rest') :- ParseCompare(operand);
      Some((Logic(e, Token.And, right), rest'))
    else if rest[0].tok.Or? || rest[0].tok.RParen? || rest[0].tok.Eol? then Some((e, rest))
    else None
  }

  function ParseOr(ts: Tokens): (r: Parsed)
    ensures Shorter(r, ts)
    decreases |ts|, 5
  {
    var (e, rest) :- ParseAnd(ts);
    ParseMoreOr(e, rest)
  }

  /** The loop of `or`, with the tree built so far. */
  function ParseMoreOr(e: Expr, ts: Tokens): (r: Parsed)
    ensures r.Some? ==> |r.value.1| <= |ts|
    decreases |ts|, 5
  {
    if ts[0].tok.Or? then
      var operand :- Advance(ts);
      var (right, rest) :- ParseAnd(operand);
      ParseMoreOr(Logic(e, Token.Or, right), rest)
    else Some((e, ts))
  }

  /** `parse`: the tree of the expression at the head of the text.  What follows it is not looked at. */
  function Parse(src: string): (r: Parsed) {
    var ts := Lex(src);
    if ts[0].tok.Illegal? then None else ParseOr(ts)
  }

  // ----- the parser object -----

  datatype ParseError = ParseError(position: nat)

  type Outcome = Result<Expr, ParseError>

  class Parser {
    const lexer: Lexer
    var pos: nat
    var tok: Token
    var val: string

    ghost predicate Valid()
      reads this, lexer
    {
      lexer.Valid() && !tok.Illegal?
    }

    /** The current token and those the lexer has still to deliver. */
    ghost function Pending(): (ts: Tokens)
      requires lexer.Valid()
      reads this, lexer
    {
      [Lexeme(tok, val)] + if tok.Eol? || tok.Illegal? then [] else Lex(lexer.Remaining())
    }

    /** The object agrees with the reference result `p`. */
    ghost predicate Agrees(r: Outcome, p: Parsed)
      reads this, lexer
    {
      match p
      case Some((e, rest)) => Valid() && r == Success(e) && Pending() == rest
      case None => r.Failure?
    }

    constructor (lexer: Lexer)
      requires lexer.Valid()
      ensures this.lexer == lexer && tok.Eol?
    {
      this.lexer := lexer;
      pos, tok, val := 0, Eol, "";
    }

    /** Parse next token into `tok`. */
    method Next() returns (ok: bool)
      requires lexer.Valid()
      modifies this, lexer
      ensures lexer.Valid() && Pending() == Lex(old(lexer.Remaining()))
      ensures ok == !tok.Illegal?
    {
      pos, tok, val := lexer.Scan();
      ok := !tok.Illegal?;
    }

    /** `next` on a current token other than EOL. */
    method Step() returns (ok: bool)
      requires Valid() && !tok.Eol?
      modifies this, lexer
      ensures match Advance(old(Pending()))
              case Some(rest) => ok && Valid() && Pending() == rest
              case None => !ok
    {
      ghost var ts := Pending();
      ok := Next();
      assert ts[1..] == Pending();
    }

    method Primary() returns (r: Outcome)
      requires Valid()
      modifies this, lexer
      ensures Agrees(r, ParsePrimary(old(Pending())))
      decreases |Pending()|, 0
    {
      ghost var ts := Pending();
      if tok.Str? {
        var name := val;
        var ok := Step();
        return if ok then Success(Literal(name)) else Failure(ParseError(pos));
      } else if tok.Nil? {
        var ok := Step();
        return if ok then Success(NilLit) else Failure(ParseError(pos));
      } else if tok.Number? {
        var v := ParseNumber(val);
        if v.None? {
          return Failure(ParseError(pos));
        }
        var ok := Step();
        return if ok then Success(Num(v.value)) else Failure(ParseError(pos));
      } else if tok.LParen? {
        var ok := Step();
        if !ok {
          return Failure(ParseError(pos));
        }
        r := Expression();
        if r.Failure? {
          return;
        }
        if !tok.RParen? {
          return Failure(ParseError(pos));
        }
        ok := Step();
        return if ok then Success(Group(r.value)) else Failure(ParseError(pos));
      }
      r := Failure(ParseError(pos));
    }

    method UnaryTerm() returns (r: Outcome)
      requires Valid()
      modifies this, lexer
      ensures Agrees(r, ParseUnary(old(Pending())))
      decreases |Pending()|, 1
    {
      if tok.Dec? {
        var ok := Step();
        if !ok || !tok.Number? {
          return Failure(ParseError(pos));
        }
        r := Primary();
        if r.Success? {
          r := Success(Unary(Dec, r.value));
        }
        return;
      }
      if !tok.Number? && !tok.Nil? {
        return Failure(ParseError(pos));
      }
      r := Primary();
    }

    method ValueTerm() returns (r: Outcome)
      requires Valid()
      modifies this, lexer
      ensures Agrees(r, ParseValue(old(Pending())))
      decreases |Pending()|, 2
    {
      r := UnaryTerm();
      if r.Success? && tok.Str? {
        var unit := Primary();
        r := if unit.Success? then Success(Value(r.value, unit.value)) else unit;
      }
    }

    method Compare() returns (r: Outcome)
      requires Valid()
      modifies this, lexer
      ensures Agrees(r, ParseCompare(old(Pending())))
      decreases |Pending()|, 3
    {
      r := Primary();
      if r.Success? && IsCompareOp(tok) {
        var op := tok;
        var ok := Step();
        if !ok {
          return Failure(ParseError(pos));
        }
        var right := ValueTerm();
        r := if right.Success? then Success(Comp(r.value, op, right.value)) else right;
      }
    }

    method Conjunction() returns (r: Outcome)
      requires Valid()
      modifies this, lexer
      ensures Agrees(r, ParseAnd(old(Pending())))
      decreases |Pending()|, 4
    {
      r := Compare();
      if r.Failure? {
        return;
      }
      if tok.And? {
        var ok := Step();
        if !ok {
          return Failure(ParseError(pos));
        }
        var right := Compare();
        return if right.Success? then Success(Logic(r.value, Token.And, right.value)) else right;
      }
      if !(tok.Or? || tok.RParen? || tok.Eol?) {
        r := Failure(ParseError(pos));
      }
    }

    method Expression() returns (r: Outcome)
      requires Valid()
      modifies this, lexer
      ensures Agrees(r, ParseOr(old(Pending())))
      decreases |Pending()|, 5
    {
      ghost var ts := Pending();
      r := Conjunction();
      if r.Failure? {
        return;
      }
      while tok.Or?
        invariant Valid() && r.Success? && |Pending()| < |ts|
        invariant ParseOr(ts) == ParseMoreOr(r.value, Pending())
        decreases |Pending()|
      {
        var ok := Step();
        if !ok {
          return Failure(ParseError(pos));
        }
        var right := Conjunction();
        if right.Failure? {
          return right;
        }
        r := Success(Logic(r.value, Token.Or, right.value));
      }
    }
  }

  /** `parse`, with panics turned into a `ParseError`: for every text it ends with the tree that the
      reference parser gives, or with an error when that one fails. */
  method ParseText(src: string) returns (r: Outcome)
    ensures match Parse(src)
            case Some((e, _)) => r == Success(e)
            case None => r.Failure?
  {
    var lexer := new Lexer(src);
    var p := new Parser(lexer);
    var ok := p.Next();
    if !ok {
      return Failure(ParseError(p.pos));
    }
    r := p.Expression();
  }
}

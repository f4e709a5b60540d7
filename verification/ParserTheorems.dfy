/** The parser against the grammar it implements: soundness, completeness, uniqueness of trees, and
    what happens to conjunctions with more than two operands. */
module ParserTheorems {
  import opened Wrappers
  import opened Syntax
  import opened Lexing
  import opened Grammar
  import opened Parsing

  /** The tokens that a parse of `ts` with rest `rest` has consumed. */
  function Consumed(ts: Tokens, rest: Tokens): (w: seq<Lexeme>)
    requires |rest| <= |ts|
  {
    ts[..|ts| - |rest|]
  }

  /** `p` consumed a prefix of `ts` that `derives` accepts with the tree returned. */
  ghost predicate Sound(derives: (seq<Lexeme>, Expr) -> bool, ts: Tokens, p: Parsed) {
    p.Some? ==>
      var (e, rest) := p.value;
      && |rest| < |ts|
      && ts == Consumed(ts, rest) + rest
      && !rest[0].tok.Illegal?
      && derives(Consumed(ts, rest), e)
  }

  /** The consumed tokens of a left part, an operator and a right part. */
  lemma Join(ts: Tokens, l: seq<Lexeme>, rest: Tokens, r: seq<Lexeme>, rest': Tokens)
    requires ts == l + rest && rest[1..] == r + rest'
    ensures |rest'| < |ts| && ts == l + [rest[0]] + r + rest'
    ensures Consumed(ts, rest') == l + [rest[0]] + r
  {}

  lemma {:induction false} PrimarySound(ts: Tokens)
    ensures Sound(IsPrimary, ts, ParsePrimary(ts))
    decreases |ts|, 0
  {
    var p := ParsePrimary(ts);
    if p.Some? && ts[0].tok.LParen? {
      var (e, close) := ParseOr(ts[1..]).value;
      OrSound(ts[1..]);
      var w := Consumed(ts[1..], close);
      MakeGroup(ts[0], w, close[0], e);
      assert ts == ([ts[0]] + w + [close[0]]) + close[1..];
    }
  }

  lemma UnarySound(ts: Tokens)
    ensures Sound(IsUnary, ts, ParseUnary(ts))
  {}

  lemma ValueSound(ts: Tokens)
    ensures Sound(IsValue, ts, ParseValue(ts))
  {
    UnarySound(ts);
    var p := ParseValue(ts);
    if p.Some? && p.value.0.Value? {
      var (e, rest) := ParseUnary(ts).value;
      var w := Consumed(ts, rest);
      assert !e.Value?;
      assert rest[0].tok.Str?;
      assert ParsePrimary(rest) == Some((Literal(rest[0].val), rest[1..]));
      MakeValue(w, e, [rest[0]], p.value.0.unit);
      assert ts == (w + [rest[0]]) + p.value.1;
    }
  }

  lemma {:induction false} CompareSound(ts: Tokens)
    ensures Sound(IsCompare, ts, ParseCompare(ts))
    decreases |ts|, 1
  {
    PrimarySound(ts);
    var p := ParseCompare(ts);
    if p.Some? && p != ParsePrimary(ts) {
      var (left, rest) := ParsePrimary(ts).value;
      var l := Consumed(ts, rest);
      ValueSound(rest[1..]);
      var (right, rest') := ParseValue(rest[1..]).value;
      var r := Consumed(rest[1..], rest');
      MakeCompare(l, left, rest[0], r, right);
      Join(ts, l, rest, r, rest');
    }
  }

  lemma {:induction false} AndSound(ts: Tokens)
    ensures Sound(IsAnd, ts, ParseAnd(ts))
    decreases |ts|, 2
  {
    CompareSound(ts);
    var p := ParseAnd(ts);
    if p.Some? && ParseCompare(ts).value.1[0].tok.And? {
      var (left, rest) := ParseCompare(ts).value;
      var l := Consumed(ts, rest);
      CompareSound(rest[1..]);
      var (right, rest') := ParseCompare(rest[1..]).value;
      var r := Consumed(rest[1..], rest');
      MakeAnd(l, left, rest[0], r, right);
      Join(ts, l, rest, r, rest');
    }
  }

  lemma {:induction false} OrSound(ts: Tokens)
    ensures Sound(IsOr, ts, ParseOr(ts))
    decreases |ts|, 3
  {
    AndSound(ts);
    if ParseAnd(ts).Some? {
      var (e, rest) := ParseAnd(ts).value;
      MoreOrSound(ts, Consumed(ts, rest), e, rest);
    }
  }

  lemma {:induction false} MoreOrSound(ts: Tokens, l: seq<Lexeme>, left: Expr, rest: Tokens)
    requires ts == l + rest && l != [] && !rest[0].tok.Illegal? && IsOr(l, left)
    ensures Sound(IsOr, ts, ParseMoreOr(left, rest))
    decreases |rest|, 4
  {
    assert l == Consumed(ts, rest);
    if rest[0].tok.Or? && Advance(rest).Some? && ParseAnd(rest[1..]).Some? {
      AndSound(rest[1..]);
      var (right, rest') := ParseAnd(rest[1..]).value;
      var r := Consumed(rest[1..], rest');
      MakeOr(l, left, rest[0], r, right);
      Join(ts, l, rest, r, rest');
      MoreOrSound(ts, l + [rest[0]] + r, Logic(left, Token.Or, right), rest');
    }
  }

  // ----- completeness: a derivation followed by a fitting token is found -----

  predicate Follows(f: Token) {
    !f.Illegal? && !f.Str? && !IsCompareOp(f)
  }

  lemma {:induction false} PrimaryComplete(w: seq<Lexeme>, e: Expr, rest: Tokens)
    requires IsPrimary(w, e) && !rest[0].tok.Illegal?
    ensures ParsePrimary(w + rest) == Some((e, rest))
    decreases e, 0
  {
    var ts := w + rest;
    assert w != [] && ts[0] == w[0];
    if e.Group? {
      var body, close := w[1..|w| - 1], [w[|w| - 1]] + rest;
      assert ts[1..] == body + close;
      OrComplete(body, e.inner, close);
      OrStart(body, e.inner);
      assert close[1..] == rest;
    } else {
      assert ts[1..] == rest;
    }
  }

  /** A sentence is never empty and does not start with an ILLEGAL token. */
  lemma {:induction false} PrimaryStart(w: seq<Lexeme>, e: Expr)
    requires IsPrimary(w, e)
    ensures w != [] && !w[0].tok.Illegal?
  {}

  lemma {:induction false} CompareStart(w: seq<Lexeme>, e: Expr)
    requires IsCompare(w, e)
    ensures w != [] && !w[0].tok.Illegal?
  {
    if !IsPrimary(w, e) {
      var k :| 0 <= k < |w| && ComparesAt(w, e, k);
      PrimaryStart(w[..k], e.left);
    }
  }

  lemma {:induction false} AndStart(w: seq<Lexeme>, e: Expr)
    requires IsAnd(w, e)
    ensures w != [] && !w[0].tok.Illegal?
  {
    if IsCompare(w, e) {
      CompareStart(w, e);
    } else {
      var k :| 0 <= k < |w| && JoinsAt(w, e, k);
      CompareStart(w[..k], e.first);
    }
  }

  lemma {:induction false} OrStart(w: seq<Lexeme>, e: Expr)
    requires IsOr(w, e)
    ensures w != [] && !w[0].tok.Illegal?
    decreases e
  {
    if IsAnd(w, e) {
      AndStart(w, e);
    } else {
      var k :| 0 <= k < |w| && AltersAt(w, e, k);
      OrStart(w[..k], e.first);
    }
  }

  lemma {:induction false} UnaryComplete(w: seq<Lexeme>, e: Expr, rest: Tokens)
    requires IsUnary(w, e) && !rest[0].tok.Illegal?
    ensures ParseUnary(w + rest) == Some((e, rest))
    decreases e, 1
  {}

  lemma {:induction false} ValueComplete(w: seq<Lexeme>, e: Expr, rest: Tokens)
    requires IsValue(w, e) && !rest[0].tok.Illegal? && !rest[0].tok.Str?
    ensures ParseValue(w + rest) == Some((e, rest))
    decreases e, 2
  {
    if IsUnary(w, e) {
      UnaryComplete(w, e, rest);
    } else {
      var q, tail := w[..|w| - 1], w[|w| - 1..] + rest;
      assert w + rest == q + tail;
      UnaryComplete(q, e.quantity, tail);
      NameComplete(w[|w| - 1..], e.unit, rest);
    }
  }

  lemma {:induction false} NameComplete(w: seq<Lexeme>, e: Expr, rest: Tokens)
    requires IsName(w, e) && !rest[0].tok.Illegal?
    ensures ParsePrimary(w + rest) == Some((e, rest))
  {
    assert (w + rest)[1..] == rest;
  }

  lemma {:induction false} CompareComplete(w: seq<Lexeme>, e: Expr, rest: Tokens)
    requires IsCompare(w, e) && Follows(rest[0].tok)
    ensures ParseCompare(w + rest) == Some((e, rest))
    decreases e, 3
  {
    if IsPrimary(w, e) {
      PrimaryComplete(w, e, rest);
    } else {
      var k :| 0 <= k < |w| && ComparesAt(w, e, k);
      var tail := SplitAt(w, k, rest);
      PrimaryComplete(w[..k], e.left, tail);
      ValueStart(w[k + 1..], e.right);
      ValueComplete(w[k + 1..], e.right, rest);
    }
  }

  /** The tokens from the operator at `k` on. */
  lemma SplitAt(w: seq<Lexeme>, k: nat, rest: Tokens) returns (tail: Tokens)
    requires k < |w|
    ensures w + rest == w[..k] + tail && tail[0] == w[k] && |tail| >= 2
    ensures tail[1..] == w[k + 1..] + rest
    ensures k + 1 < |w| ==> tail[1] == w[k + 1]
  {
    tail := [w[k]] + (w[k + 1..] + rest);
  }

  lemma ValueStart(w: seq<Lexeme>, e: Expr)
    requires IsValue(w, e)
    ensures w != [] && !w[0].tok.Illegal?
  {}

  /** Two operands around `&&` are read as soon as the next token cannot continue the second one:
      here it may also be another `&&`. */
  lemma {:induction false} ConjunctionComplete(w: seq<Lexeme>, e: Expr, k: nat, rest: Tokens)
    requires k < |w| && JoinsAt(w, e, k) && Follows(rest[0].tok)
    ensures ParseAnd(w + rest) == Some((e, rest))
    decreases e, 4
  {
    var tail := SplitAt(w, k, rest);
    CompareComplete(w[..k], e.first, tail);
    CompareStart(w[k + 1..], e.second);
    CompareComplete(w[k + 1..], e.second, rest);
  }

  lemma {:induction false} AndComplete(w: seq<Lexeme>, e: Expr, rest: Tokens)
    requires IsAnd(w, e) && (rest[0].tok.Or? || rest[0].tok.RParen? || rest[0].tok.Eol?)
    ensures ParseAnd(w + rest) == Some((e, rest))
    decreases e, 5
  {
    if IsCompare(w, e) {
      CompareComplete(w, e, rest);
    } else {
      var k :| 0 <= k < |w| && JoinsAt(w, e, k);
      ConjunctionComplete(w, e, k, rest);
    }
  }

  /** The loop of `or`: reading the sentence `w` leads the loop to the tree `e` at `rest`. */
  lemma {:induction false} OrReaches(w: seq<Lexeme>, e: Expr, rest: Tokens)
    requires IsOr(w, e) && (rest[0].tok.Or? || rest[0].tok.RParen? || rest[0].tok.Eol?)
    ensures ParseOr(w + rest) == ParseMoreOr(e, rest)
    decreases e, 6
  {
    if IsAnd(w, e) {
      AndComplete(w, e, rest);
    } else {
      var k :| 0 <= k < |w| && AltersAt(w, e, k);
      var tail := SplitAt(w, k, rest);
      OrReaches(w[..k], e.first, tail);
      AndStart(w[k + 1..], e.second);
      AndComplete(w[k + 1..], e.second, rest);
    }
  }

  lemma {:induction false} OrComplete(w: seq<Lexeme>, e: Expr, rest: Tokens)
    requires IsOr(w, e) && (rest[0].tok.RParen? || rest[0].tok.Eol?)
    ensures ParseOr(w + rest) == Some((e, rest))
    decreases e, 7
  {
    OrReaches(w, e, rest);
  }

  // ----- main results -----

  /** Soundness: whatever `parse` returns is the tree of the tokens it consumed. */
  lemma ParseSound(src: string)
    ensures Parse(src).Some? ==>
              var (e, rest) := Parse(src).value;
              |rest| < |Lex(src)| && Lex(src) == Consumed(Lex(src), rest) + rest && IsOr(Consumed(Lex(src), rest), e)
  {
    OrSound(Lex(src));
  }

  /** Completeness and exactness: `parse` returns `e` having read everything up to EOL if and only if
      the tokens before EOL are a sentence of the grammar with the tree `e`. */
  lemma {:induction false} WholeInputIffSentence(src: string, e: Expr)
    ensures Parse(src) == Some((e, [EOL_LEXEME])) <==> IsSentence(Lex(src), e)
  {
    if Parse(src) == Some((e, [EOL_LEXEME])) {
      ParseSound(src);
    }
    if IsSentence(Lex(src), e) {
      SentenceIsAccepted(src, e);
    }
  }

  /** A token list that is a sentence of the grammar followed by EOL. */
  ghost predicate IsSentence(ts: Tokens, e: Expr) {
    ts[|ts| - 1] == EOL_LEXEME && IsOr(ts[..|ts| - 1], e)
  }

  lemma {:induction false} SentenceIsAccepted(src: string, e: Expr)
    requires IsSentence(Lex(src), e)
    ensures Parse(src) == Some((e, [EOL_LEXEME]))
  {
    var ts := Lex(src);
    var w := ts[..|ts| - 1];
    assert ts == w + [EOL_LEXEME];
    OrStart(w, e);
    OrComplete(w, e, [EOL_LEXEME]);
  }

  /** On the text itself: it is read to its end with the tree `e` if and only if it consists of lexemes, up to
      its end or a NUL, that are a sentence with this tree. */
  lemma {:induction false} WholeTextIffSentence(src: string, e: Expr)
    ensures Parse(src) == Some((e, [EOL_LEXEME])) <==> exists w :: Spells(src, w) && IsOr(w, e)
  {
    WholeInputIffSentence(src, e);
    if IsSentence(Lex(src), e) {
      var w := Lex(src)[..|Lex(src)| - 1];
      FrontAndLast(Lex(src), w);
      LexIffSpells(src, w);
    }
    if exists w :: Spells(src, w) && IsOr(w, e) {
      var w :| Spells(src, w) && IsOr(w, e);
      LexIffSpells(src, w);
      FrontAndLast(Lex(src), w);
    }
  }

  lemma FrontAndLast(ts: seq<Lexeme>, w: seq<Lexeme>)
    requires ts != []
    ensures ts == w + [EOL_LEXEME] <==> ts[|ts| - 1] == EOL_LEXEME && ts[..|ts| - 1] == w
  {}

  /** A token string has at most one tree: the grammar is unambiguous. */
  lemma TreeIsUnique(w: seq<Lexeme>, e: Expr, e': Expr)
    requires IsOr(w, e) && IsOr(w, e')
    ensures e == e'
  {
    OrComplete(w, e, [EOL_LEXEME]);
    OrComplete(w, e', [EOL_LEXEME]);
  }

  /** The header comment promises `a && b && c && ...`.  The code reads the first two operands and
      returns successfully, whatever comes after the second `&&`: the other operands are dropped. */
  lemma LaterConjunctsAreDropped(src: string, w: seq<Lexeme>, e: Expr, k: nat, rest: Tokens)
    requires k < |w| && JoinsAt(w, e, k)
    requires Lex(src) == w + rest && rest[0].tok.And?
    ensures Parse(src) == Some((e, rest))
  {
    ConjunctionComplete(w, e, k, rest);
    AndStart(w, e);
    AndThenOr(w + rest);
  }

  lemma AndThenOr(ts: Tokens)
    requires ParseAnd(ts).Some? && !ParseAnd(ts).value.1[0].tok.Or?
    ensures ParseOr(ts) == ParseAnd(ts)
  {}

  /** There is no whole-input check: text after a complete conjunction is accepted unread.  But after a
      single comparison any other token than `&&`, `||`, `)` and EOL is an error. */
  lemma TrailingTokenRejectedAfterCompare(ts: Tokens)
    requires ParseCompare(ts).Some?
    ensures var f := ParseCompare(ts).value.1[0].tok;
            !f.And? && !f.Or? && !f.RParen? && !f.Eol? ==> ParseOr(ts).None?
  {}
}

/** The scanner of the condition language (internal/configuration/interpreter/lexer.go). */
module Lexing {
  import opened Syntax
  import opened Numbers

  const NUL: char := '\0'

  // ----- reference scanner on the text that is still to be read -----

  /** Length of the longest prefix of `s` whose characters are all in the class `p`. */
  function Span(p: char -> bool, s: string): (n: nat)
    ensures n <= |s|
    ensures forall i :: 0 <= i < n ==> p(s[i])
    ensures n < |s| ==> !p(s[n])
  {
    if s == "" || !p(s[0]) then 0 else 1 + Span(p, s[1..])
  }

  /** Text left after the leading spaces and tabs. */
  function SkipBlanks(s: string): (t: string)
    ensures |t| <= |s| && t == s[|s| - |t|..]
    ensures forall i :: 0 <= i < |s| - |t| ==> IsBlank(s[i])
    ensures t != "" ==> !IsBlank(t[0])
  {
    s[Span(IsBlank, s)..]
  }

  /** The character `k` places ahead, or NUL past the end: what the lexer keeps in `ch`. */
  function Peek(s: string, k: nat): (c: char) {
    if k < |s| then s[k] else NUL
  }

  /** The operator that starts with `c` when `next` follows, and its length. */
  function Operator(c: char, next: char): (r: (Token, nat))
    ensures r.1 == 1 || (r.1 == 2 && next != NUL)
    ensures !r.0.Illegal? ==> |OperatorText(r.0)| == r.1 && OperatorText(r.0)[0] == c
    ensures !r.0.Illegal? && r.1 == 2 ==> OperatorText(r.0)[1] == next
    ensures !r.0.Illegal? && r.1 == 1 ==> !Absorbs(r.0, next)
  {
    match c
    case '(' => (LParen, 1)
    case ')' => (RParen, 1)
    case '-' => (Dec, 1)
    case '!' => if next == '=' then (NotEquals, 2) else (Illegal, 1)
    case '=' => if next == '=' then (Equals, 2) else (Illegal, 1)
    case '<' => if next == '=' then (Lte, 2) else (Less, 1)
    case '>' => if next == '=' then (Gte, 2) else (Greater, 1)
    case '&' => if next == '&' then (Token.And, 2) else (Illegal, 1)
    case '|' => if next == '|' then (Token.Or, 2) else (Illegal, 1)
    case _ => (Illegal, 1)
  }

  predicate IsOperatorChar(c: char) {
    || c == '(' || c == ')' || c == '-' || c == '!' || c == '='
    || c == '<' || c == '>' || c == '&' || c == '|'
  }

  function ScanWord(t: string): (r: (Lexeme, string)) {
    var n := Span(InWord, t);
    (Lexeme(if t[..n] == "nil" then Nil else Str, t[..n]), t[n..])
  }

  function ScanNumeral(t: string): (r: (Lexeme, string)) {
    var n := Span(InNumber, t);
    (Lexeme(if CountDots(t[..n]) > 1 then Illegal else Number, t[..n]), t[n..])
  }

  function ScanOperator(t: string): (r: (Lexeme, string))
    requires t != ""
  {
    var (tok, n) := Operator(t[0], Peek(t, 1));
    (Lexeme(tok, if IsOperatorChar(t[0]) then "" else "unexpected char"), t[n..])
  }

  /** The lexeme at the head of `t`, which has no leading blanks, and the text that follows it. */
  function ScanToken(t: string): (r: (Lexeme, string)) {
    var c := Peek(t, 0);
    if c == NUL then (EOL_LEXEME, t)
    else if StartsWord(c) then ScanWord(t)
    else if IsDigit(c) then ScanNumeral(t)
    else ScanOperator(t)
  }

  /** The first lexeme of `s` and the text that follows it. */
  function ScanText(s: string): (r: (Lexeme, string))
    ensures |r.1| <= |s|
    ensures !r.0.tok.Eol? ==> |r.1| < |s|
  {
    ScanToken(SkipBlanks(s))
  }

  /** All lexemes of `s`, up to and including the first EOL or ILLEGAL: the parser asks for no more. */
  function Lex(s: string): (ts: seq<Lexeme>)
    ensures ts != []
    decreases |s|
  {
    var (l, rest) := ScanText(s);
    if l.tok.Eol? || l.tok.Illegal? then [l] else [l] + Lex(rest)
  }

  // ----- declarative description of a scan -----

  /** Exactly the lexemes a source text can contain. */
  predicate WellSpelled(l: Lexeme) {
    match l.tok
    case Str => IsWord(l.val) && l.val != "nil"
    case Nil => l.val == "nil"
    case Number => IsNumeral(l.val)
    case Eol => false
    case Illegal => false
    case _ => l.val == ""
  }

  predicate IsWord(s: string) {
    s != "" && StartsWord(s[0]) && forall i :: 0 <= i < |s| ==> InWord(s[i])
  }

  function OperatorText(t: Token): (s: string) {
    match t
    case LParen => "("
    case RParen => ")"
    case Dec => "-"
    case And => "&&"
    case Equals => "=="
    case NotEquals => "!="
    case Gte => ">="
    case Greater => ">"
    case Lte => "<="
    case Less => "<"
    case Or => "||"
    case _ => ""
  }

  function Spelling(l: Lexeme): (s: string) {
    if l.tok.Str? || l.tok.Number? || l.tok.Nil? then l.val else OperatorText(l.tok)
  }

  /** A following `c` would be read as part of `l`. */
  predicate Absorbs(t: Token, c: char) {
    match t
    case Str => InWord(c)
    case Nil => InWord(c)
    case Number => InNumber(c)
    case Less => c == '='
    case Greater => c == '='
    case _ => false
  }

  /** Longest match: `s` is blanks, then the spelling of `l`, then `rest`, which does not continue it. */
  predicate Reads(s: string, blanks: string, l: Lexeme, rest: string) {
    && (forall i :: 0 <= i < |blanks| ==> IsBlank(blanks[i]))
    && s == blanks + Spelling(l) + rest
    && (rest == "" || !Absorbs(l.tok, rest[0]))
  }

  /** A scan of `s` with result `r` gave EOL or ILLEGAL, or a longest match behind `blanks`. */
  ghost predicate Matches(s: string, blanks: string, r: (Lexeme, string)) {
    r.0.tok.Eol? || r.0.tok.Illegal? || (WellSpelled(r.0) && Reads(s, blanks, r.0, r.1))
  }

  lemma {:induction false} WordIsSpelled(t: string)
    requires t != "" && StartsWord(t[0])
    ensures Matches(t, "", ScanWord(t))
  {
    var n := Span(InWord, t);
    assert n > 0;
    assert t[..n][0] == t[0] && t == t[..n] + t[n..];
  }

  lemma {:induction false} NumeralIsSpelled(t: string)
    requires t != "" && IsDigit(t[0])
    ensures Matches(t, "", ScanNumeral(t))
  {
    var n := Span(InNumber, t);
    assert n > 0;
    assert t[..n][0] == t[0] && t == t[..n] + t[n..];
  }

  lemma {:induction false} OperatorIsSpelled(t: string)
    requires t != "" && !StartsWord(t[0]) && !IsDigit(t[0])
    ensures Matches(t, "", ScanOperator(t))
  {
    var (tok, n) := Operator(t[0], Peek(t, 1));
    if !tok.Illegal? {
      assert t[..n] == OperatorText(tok);
      assert t == t[..n] + t[n..];
    }
  }

  /** At the head of a text without leading blanks, the scanner finds a spelling at full length. */
  lemma {:induction false} TokenIsLongestMatch(t: string)
    ensures Matches(t, "", ScanToken(t))
  {
    if Peek(t, 0) != NUL {
      if StartsWord(t[0]) {
        WordIsSpelled(t);
      } else if IsDigit(t[0]) {
        NumeralIsSpelled(t);
      } else {
        OperatorIsSpelled(t);
      }
    }
  }

  lemma {:induction false} BlanksInFront(s: string, k: nat, r: (Lexeme, string))
    requires k <= |s| && forall i :: 0 <= i < k ==> IsBlank(s[i])
    requires Matches(s[k..], "", r)
    ensures Matches(s, s[..k], r)
  {
    if !r.0.tok.Eol? && !r.0.tok.Illegal? {
      assert s[k..] == Spelling(r.0) + r.1;
      assert s == s[..k] + s[k..];
    }
  }

  /** Everything the scanner accepts is spelled in the source, at full length. */
  lemma {:induction false} ScanIsLongestMatch(s: string)
    ensures Matches(s, s[..Span(IsBlank, s)], ScanText(s))
  {
    var n := Span(IsBlank, s);
    TokenIsLongestMatch(s[n..]);
    BlanksInFront(s, n, ScanToken(s[n..]));
  }

  lemma {:induction false} SpanOf(p: char -> bool, a: string, b: string)
    requires forall i :: 0 <= i < |a| ==> p(a[i])
    requires b == "" || !p(b[0])
    ensures Span(p, a + b) == |a|
  {
    assert forall i :: 0 <= i < |a| ==> (a + b)[i] == a[i];
    if b != "" {
      assert (a + b)[|a|] == b[0];
    }
  }

  lemma {:induction false} LongestMatchIsToken(l: Lexeme, rest: string)
    requires WellSpelled(l) && (rest == "" || !Absorbs(l.tok, rest[0]))
    ensures ScanToken(Spelling(l) + rest) == (l, rest)
  {
    if l.tok.Str? || l.tok.Nil? {
      WordIsToken(l, rest);
    } else if l.tok.Number? {
      NumeralIsToken(l, rest);
    } else {
      OperatorIsToken(l, rest);
    }
  }

  lemma {:induction false} WordIsToken(l: Lexeme, rest: string)
    requires (l.tok.Str? || l.tok.Nil?) && WellSpelled(l) && (rest == "" || !InWord(rest[0]))
    ensures ScanToken(l.val + rest) == (l, rest)
  {
    var t := l.val + rest;
    assert t[0] == l.val[0];
    SpanOf(InWord, l.val, rest);
    assert t[..|l.val|] == l.val && t[|l.val|..] == rest;
  }

  lemma {:induction false} NumeralIsToken(l: Lexeme, rest: string)
    requires l.tok.Number? && WellSpelled(l) && (rest == "" || !InNumber(rest[0]))
    ensures ScanToken(l.val + rest) == (l, rest)
  {
    var t := l.val + rest;
    assert t[0] == l.val[0];
    SpanOf(InNumber, l.val, rest);
    assert t[..|l.val|] == l.val && t[|l.val|..] == rest;
  }

  lemma {:induction false} OperatorIsToken(l: Lexeme, rest: string)
    requires WellSpelled(l) && !l.tok.Str? && !l.tok.Nil? && !l.tok.Number?
    requires rest == "" || !Absorbs(l.tok, rest[0])
    ensures ScanToken(OperatorText(l.tok) + rest) == (l, rest)
  {
    var o := OperatorText(l.tok);
    var t := o + rest;
    assert t[0] == o[0] && t[|o|..] == rest;
    if |o| == 2 {
      assert t[1] == o[1];
    } else {
      assert Peek(t, 1) == Peek(rest, 0);
    }
  }

  /** Conversely the scanner finds every lexeme so spelled: with `ScanIsLongestMatch`, a scan is
      exactly a longest match. */
  lemma {:induction false} LongestMatchIsScanned(s: string, blanks: string, l: Lexeme, rest: string)
    requires WellSpelled(l) && Reads(s, blanks, l, rest)
    ensures ScanText(s) == (l, rest)
  {
    var t := Spelling(l) + rest;
    assert s == blanks + t;
    LongestMatchIsToken(l, rest);
    assert !IsBlank(t[0]);
    SpanOf(IsBlank, blanks, t);
    assert SkipBlanks(s) == t;
  }

  /** The text `t` alone is scanned as the token `tok`. */
  predicate IsScannedAs(t: string, tok: Token) {
    ScanToken(t) == (Lexeme(tok, ""), "")
  }

  /** The operators as they are written. */
  lemma Operators()
    ensures IsScannedAs("(", LParen) && IsScannedAs(")", RParen) && IsScannedAs("-", Dec)
    ensures IsScannedAs("&&", Token.And) && IsScannedAs("||", Token.Or)
  {
    Written(LParen);
    Written(RParen);
    Written(Dec);
    Written(Token.And);
    Written(Token.Or);
  }

  lemma ComparisonOperators()
    ensures IsScannedAs("==", Equals) && IsScannedAs("!=", NotEquals)
    ensures IsScannedAs("<", Less) && IsScannedAs("<=", Lte) && IsScannedAs(">", Greater) && IsScannedAs(">=", Gte)
  {
    Written(Equals);
    Written(NotEquals);
    Written(Less);
    Written(Lte);
    Written(Greater);
    Written(Gte);
  }

  /** Half of a two-character operator is illegal, and so is a numeral with two dots. */
  lemma {:induction false} IllegalForms(a: string, b: string, c: string)
    requires a != "" && AllDigits(a) && AllDigits(b) && AllDigits(c)
    ensures forall h :: h in {"&", "|", "=", "!"} ==> ScanToken(h).0.tok.Illegal?
    ensures ScanToken(a + "." + b + "." + c).0.tok.Illegal?
  {
    var s := a + "." + b + "." + c;
    TwoDots(a, b, c);
    SpanOf(InNumber, s, "");
    assert s + "" == s && s[..|s|] == s && s[0] == a[0];
  }

  lemma {:induction false} TwoDots(a: string, b: string, c: string)
    requires AllDigits(a) && AllDigits(b) && AllDigits(c)
    ensures var s := a + "." + b + "." + c; CountDots(s) == 2 && forall i :: 0 <= i < |s| ==> InNumber(s[i])
  {
    var s := a + "." + b + "." + c;
    if c == "" {
      assert s[..|s| - 1] == a + "." + b && s[|s| - 1] == '.';
      DotDigits(a, b);
    } else {
      assert s[..|s| - 1] == a + "." + b + "." + c[..|c| - 1] && s[|s| - 1] == c[|c| - 1];
      TwoDots(a, b, c[..|c| - 1]);
    }
  }

  lemma Written(tok: Token)
    requires WellSpelled(Lexeme(tok, "")) && !tok.Str? && !tok.Nil? && !tok.Number?
    ensures IsScannedAs(OperatorText(tok), tok)
  {
    OperatorIsToken(Lexeme(tok, ""), "");
    assert OperatorText(tok) + "" == OperatorText(tok);
  }

  /** EOL is sticky: scanning again after EOL finds EOL and moves no further. */
  lemma {:induction false} EolIsSticky(s: string)
    requires ScanText(s).0.tok.Eol?
    ensures ScanText(ScanText(s).1) == ScanText(s)
  {}

  /** The text is at its end: nothing is left, or a NUL. */
  predicate AtEnd(t: string) {
    t == "" || t[0] == NUL
  }

  lemma {:induction false} TokenAtEnd(t: string)
    requires t == "" || !IsBlank(t[0])
    ensures ScanToken(t).0.tok.Eol? <==> AtEnd(t)
    ensures ScanToken(t).0.tok.Eol? ==> ScanToken(t) == (EOL_LEXEME, t)
  {}

  lemma {:induction false} BlanksSkipped(blanks: string, t: string)
    requires (forall i :: 0 <= i < |blanks| ==> IsBlank(blanks[i])) && (t == "" || !IsBlank(t[0]))
    ensures SkipBlanks(blanks + t) == t
  {
    SpanOf(IsBlank, blanks, t);
  }

  /** EOL is found exactly where the text is at its end behind the blanks, and it stays there. */
  lemma {:induction false} EolIff(blanks: string, t: string)
    requires (forall i :: 0 <= i < |blanks| ==> IsBlank(blanks[i])) && (t == "" || !IsBlank(t[0]))
    ensures ScanText(blanks + t).0.tok.Eol? <==> AtEnd(t)
    ensures AtEnd(t) ==> ScanText(blanks + t) == (EOL_LEXEME, t)
  {
    BlanksSkipped(blanks, t);
    TokenAtEnd(t);
  }

  /** A lexeme is spelled at the head of the text, at full length. */
  ghost predicate SpelledAt(s: string) {
    exists blanks, l, rest :: WellSpelled(l) && Reads(s, blanks, l, rest)
  }

  /** ILLEGAL is found exactly where the text is not at its end and no lexeme is spelled: at an unexpected
      character, at half of a two-character operator, and at a numeral with two dots. */
  lemma {:induction false} IllegalIff(s: string)
    ensures ScanText(s).0.tok.Illegal? <==> !ScanText(s).0.tok.Eol? && !SpelledAt(s)
  {
    ScanIsLongestMatch(s);
    var (l, rest) := ScanText(s);
    if !l.tok.Illegal? && !l.tok.Eol? {
      assert Reads(s, s[..Span(IsBlank, s)], l, rest);
    }
    if SpelledAt(s) {
      var blanks, l', rest' :| WellSpelled(l') && Reads(s, blanks, l', rest');
      LongestMatchIsScanned(s, blanks, l', rest');
    }
  }

  // ----- token lists and texts -----

  /** The text consists of the lexemes `w`, each behind blanks and at full length, up to its end. */
  ghost predicate Spells(s: string, w: seq<Lexeme>)
    decreases |w|
  {
    if w == [] then exists blanks, t :: EndsAfter(s, blanks, t)
    else exists blanks, rest :: WellSpelled(w[0]) && Reads(s, blanks, w[0], rest) && Spells(rest, w[1..])
  }

  ghost predicate EndsAfter(s: string, blanks: string, t: string) {
    s == blanks + t && (forall i :: 0 <= i < |blanks| ==> IsBlank(blanks[i])) && AtEnd(t)
  }

  lemma {:induction false} EndIsBlank(s: string)
    ensures ScanText(s).0.tok.Eol? <==> exists blanks, t :: EndsAfter(s, blanks, t)
    ensures ScanText(s).0.tok.Eol? ==> ScanText(s).0 == EOL_LEXEME
  {
    var n := Span(IsBlank, s);
    assert s == s[..n] + s[n..];
    EolIff(s[..n], s[n..]);
    if ScanText(s).0.tok.Eol? {
      assert EndsAfter(s, s[..n], s[n..]);
    }
    if exists blanks, t :: EndsAfter(s, blanks, t) {
      var blanks, t :| EndsAfter(s, blanks, t);
      EolIff(blanks, t);
    }
  }

  /** The scanner delivers the lexemes `w` and then EOL if and only if the text consists of them: it loses
      nothing, invents nothing, and stops nowhere before the end. */
  lemma {:induction false} LexIffSpells(s: string, w: seq<Lexeme>)
    ensures Lex(s) == w + [EOL_LEXEME] <==> Spells(s, w)
    decreases |w|
  {
    EndIsBlank(s);
    if w == [] {
      EmptyIffEnd(s);
    } else {
      ConsIffRead(s, w);
    }
  }

  lemma {:induction false} EmptyIffEnd(s: string)
    ensures Lex(s) == [] + [EOL_LEXEME] <==> ScanText(s).0 == EOL_LEXEME
  {
    var (l, rest) := ScanText(s);
    if !l.tok.Eol? && !l.tok.Illegal? {
      assert Lex(s)[0] == l;
    }
  }

  lemma {:induction false} ConsIffRead(s: string, w: seq<Lexeme>)
    requires w != []
    ensures Lex(s) == w + [EOL_LEXEME] <==> Spells(s, w)
    decreases |w|, 0
  {
    if Lex(s) == w + [EOL_LEXEME] {
      SplitHead(s, w);
      LexIffSpells(ScanText(s).1, w[1..]);
      ScanIsLongestMatch(s);
      assert Reads(s, s[..Span(IsBlank, s)], w[0], ScanText(s).1);
    }
    if Spells(s, w) {
      var blanks, rest :| WellSpelled(w[0]) && Reads(s, blanks, w[0], rest) && Spells(rest, w[1..]);
      LongestMatchIsScanned(s, blanks, w[0], rest);
      LexIffSpells(rest, w[1..]);
      JoinHead(s, w, rest);
    }
  }

  lemma HeadOf(l: Lexeme, tail: seq<Lexeme>, w: seq<Lexeme>, last: Lexeme)
    requires w != []
    ensures [l] + tail == w + [last] <==> l == w[0] && tail == w[1..] + [last]
  {
    assert w + [last] == [w[0]] + (w[1..] + [last]);
    assert ([l] + tail)[0] == l && ([l] + tail)[1..] == tail;
    assert ([w[0]] + (w[1..] + [last]))[1..] == w[1..] + [last];
  }

  lemma {:induction false} SplitHead(s: string, w: seq<Lexeme>)
    requires w != [] && Lex(s) == w + [EOL_LEXEME]
    ensures var (l, rest) := ScanText(s);
            l == w[0] && !l.tok.Eol? && !l.tok.Illegal? && Lex(rest) == w[1..] + [EOL_LEXEME]
  {
    var (l, rest) := ScanText(s);
    LongEnough(w, Lex(s));
    HeadOf(l, Lex(rest), w, EOL_LEXEME);
  }

  lemma LongEnough(w: seq<Lexeme>, ts: seq<Lexeme>)
    requires w != [] && ts == w + [EOL_LEXEME]
    ensures |ts| > 1
  {}

  lemma {:induction false} JoinHead(s: string, w: seq<Lexeme>, rest: string)
    requires w != [] && ScanText(s) == (w[0], rest) && WellSpelled(w[0]) && Lex(rest) == w[1..] + [EOL_LEXEME]
    ensures Lex(s) == w + [EOL_LEXEME]
  {
    HeadOf(w[0], Lex(rest), w, EOL_LEXEME);
  }

  /** Exactly the last lexeme of a token list is EOL or ILLEGAL. */
  ghost predicate Closed(ts: seq<Lexeme>) {
    && ts != [] && (ts[|ts| - 1].tok.Eol? || ts[|ts| - 1].tok.Illegal?)
    && forall i :: 0 <= i < |ts| - 1 ==> WellSpelled(ts[i])
  }

  lemma ClosedCons(l: Lexeme, ts: seq<Lexeme>)
    requires WellSpelled(l) && Closed(ts)
    ensures Closed([l] + ts)
  {}

  lemma {:induction false} LexShape(s: string)
    ensures Closed(Lex(s))
    decreases |s|
  {
    var (l, rest) := ScanText(s);
    ScanIsLongestMatch(s);
    if !l.tok.Eol? && !l.tok.Illegal? {
      LexShape(rest);
      ClosedCons(l, Lex(rest));
    }
  }

  // ----- the scanner itself -----

  class Lexer {
    const src: string
    var ch: char
    var offset: nat
    var pos: nat
    var nextPos: nat

    /** Index of `ch` in the source; the end of the source once everything is read. */
    function At(): (i: nat)
      reads this
    {
      if offset == 0 then 0 else offset - 1
    }

    ghost predicate Valid()
      reads this
    {
      && nextPos == offset && pos == At()
      && offset <= |src| + 1
      && (offset == 0 ==> src == "")
      && ch == Peek(src, At())
    }

    ghost function Remaining(): (s: string)
      requires Valid()
      reads this
    {
      src[At()..]
    }

    constructor (src: string)
      ensures Valid() && this.src == src && Remaining() == src
    {
      this.src := src;
      if src == "" {
        ch, offset, pos, nextPos := NUL, 0, 0, 0;
      } else {
        ch, offset, pos, nextPos := src[0], 1, 0, 1;
      }
    }

    /** There is a character to move on from: always, except when `ch` is a NUL at the end. */
    ghost predicate CanMove()
      reads this
    {
      ch != NUL || offset < |src|
    }

    /** Load the next character; `ch` becomes NUL one past the end, where only `pos` still changes. */
    method Next()
      requires Valid()
      modifies this
      ensures old(CanMove()) ==> Valid() && old(At()) < |src| && At() == old(At()) + 1
      ensures !old(CanMove()) ==> ch == NUL && offset == old(offset) && nextPos == old(nextPos) && pos == nextPos
    {
      pos := nextPos;
      if offset >= |src| {
        if ch != NUL {
          ch := NUL;
          offset := offset + 1;
          nextPos := nextPos + 1;
        }
        return;
      }
      ch := src[offset];
      nextPos := nextPos + 1;
      offset := offset + 1;
    }

    /** Read every character of the class `p`, which excludes NUL. */
    method NextWhile(p: char -> bool)
      requires Valid() && !p(NUL)
      modifies this
      ensures Valid()
      ensures At() == old(At()) + Span(p, old(Remaining()))
    {
      ghost var i0, s := At(), Remaining();
      while p(ch)
        invariant Valid() && i0 <= At()
        invariant At() - i0 <= Span(p, s)
        decreases |src| - At()
      {
        assert s[At() - i0] == ch;
        Next();
      }
      assert At() - i0 < |s| ==> s[At() - i0] == src[At()];
    }

    /** The identifier whose first character has just been read. */
    method ScanIdentifier(ghost t: string) returns (tok: Token, val: string)
      requires Valid() && offset >= 2 && t == src[At() - 1..] && InWord(t[0])
      modifies this
      ensures Valid() && old(At()) <= At()
      ensures tok.Str? || tok.Nil?
      ensures (Lexeme(tok, val), Remaining()) == ScanWord(t)
    {
      var start := offset - 2;
      assert Remaining() == t[1..];
      NextWhile(InWord);
      val := src[start..offset - 1];
      assert val == t[..Span(InWord, t)];
      tok := if val == "nil" then Nil else Str;
    }

    /** The number whose first character `c` has just been read. */
    method ScanNumber(c: char, ghost t: string) returns (tok: Token, val: string)
      requires Valid() && offset >= 2 && t == src[At() - 1..] && c == t[0] && IsDigit(c)
      modifies this
      ensures Valid() && old(At()) <= At()
      ensures !tok.Str? && !tok.Nil?
      ensures (Lexeme(tok, val), Remaining()) == ScanNumeral(t)
    {
      ghost var start, n := At() - 1, Span(InNumber, t);
      var chars, countDot := [c], 0;
      while IsDigit(ch) || ch == '.'
        invariant Valid() && start < At() && At() - start <= n
        invariant chars == t[..At() - start] && countDot == CountDots(chars)
        decreases |src| - At()
      {
        assert t[At() - start] == ch;
        var more := chars + [ch];
        assert more[..|more| - 1] == chars;
        if ch == '.' {
          countDot := countDot + 1;
        }
        chars := more;
        Next();
      }
      assert At() - start < |t| ==> t[At() - start] == ch;
      tok, val := if countDot > 1 then Illegal else Number, chars;
    }

    /** The operator whose first character `c` has just been read. */
    method ScanSymbol(c: char, ghost t: string) returns (tok: Token, val: string)
      requires Valid() && offset >= 2 && t == src[At() - 1..] && c == t[0]
      modifies this
      ensures Valid() && old(At()) <= At()
      ensures !tok.Str? && !tok.Nil?
      ensures (Lexeme(tok, val), Remaining()) == ScanOperator(t)
    {
      tok, val := Illegal, "";
      assert ch == Peek(t, 1);
      match c {
        case '(' => tok := LParen;
        case ')' => tok := RParen;
        case '-' => tok := Dec;
        case '!' => if ch == '=' { tok := NotEquals; Next(); }
        case '=' => if ch == '=' { tok := Equals; Next(); }
        case '<' => if ch == '=' { tok := Lte; Next(); } else { tok := Less; }
        case '>' => if ch == '=' { tok := Gte; Next(); } else { tok := Greater; }
        case '&' => if ch == '&' { tok := Token.And; Next(); }
        case '|' => if ch == '|' { tok := Token.Or; Next(); }
        case _ => val := "unexpected char";
      }
    }

    /** The token at the current character, which is not a blank. */
    method ScanHere() returns (position: nat, tok: Token, val: string)
      requires Valid()
      modifies this
      ensures Valid()
      ensures (Lexeme(tok, val), Remaining()) == ScanToken(old(Remaining()))
      ensures old(At()) <= position <= At() <= |src|
      ensures position == if tok.Str? || tok.Nil? then old(At()) else At()
    {
      if ch == NUL {
        return pos, Eol, "";
      }
      ghost var t := Remaining();
      position := pos;
      var c := ch;
      Next();
      if IsAlpha(c) || IsSymbol(c) {
        assert ScanToken(t) == ScanWord(t);
        tok, val := ScanIdentifier(t);
      } else if IsDigit(c) {
        assert ScanToken(t) == ScanNumeral(t);
        tok, val := ScanNumber(c, t);
        position := pos;
      } else {
        assert ScanToken(t) == ScanOperator(t);
        tok, val := ScanSymbol(c, t);
        position := pos;
      }
    }

    /** Scan one token.  The position reported is the start of an identifier but the end of every
        other token. */
    method Scan() returns (position: nat, tok: Token, val: string)
      requires Valid()
      modifies this
      ensures Valid()
      ensures (Lexeme(tok, val), Remaining()) == ScanText(old(Remaining()))
      ensures old(At()) <= position <= At() <= |src|
      ensures position == if tok.Str? || tok.Nil? then |src| - |SkipBlanks(old(Remaining()))| else At()
    {
      ghost var s := Remaining();
      NextWhile(IsBlank);
      assert Remaining() == SkipBlanks(s);
      position, tok, val := ScanHere();
    }
  }
}

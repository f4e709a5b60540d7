/** Tokens and expression trees of the condition language
    (internal/configuration/interpreter/token.go and expr.go).

    A source byte is a `char`: the lexer only ever compares bytes with ASCII characters, so every
    statement about a `string` here covers every byte string. */
module Syntax {

  datatype Token =
    | Illegal | Eol
    | LParen | RParen | Dec
    | And | Equals | NotEquals | Gte | Greater | Lte | Less | Or
    | Str | Number | Nil

  /** A token with its text; only `Str`, `Number`, `Nil` and `Illegal` tokens carry text. */
  datatype Lexeme = Lexeme(tok: Token, val: string)

  const EOL_LEXEME := Lexeme(Eol, "")

  predicate IsCompareOp(t: Token) {
    t in {Greater, Gte, Less, Lte, Equals, NotEquals}
  }

  datatype Expr =
    | Literal(name: string)
    | NilLit
    | Num(number: real)
    | Unary(uop: Token, operand: Expr)
    | Value(quantity: Expr, unit: Expr)
    | Comp(left: Expr, op: Token, right: Expr)
    | Logic(first: Expr, lop: Token, second: Expr)
    | Group(inner: Expr)

  // ----- character classes (lexer.go) -----

  predicate IsAlpha(c: char) {
    'a' <= c <= 'z' || 'A' <= c <= 'Z'
  }

  predicate IsSymbol(c: char) {
    c == '_' || c == '%'
  }

  predicate IsDigit(c: char) {
    '0' <= c <= '9'
  }

  predicate IsBlank(c: char) {
    c == ' ' || c == '\t'
  }

  predicate StartsWord(c: char) {
    IsAlpha(c) || IsSymbol(c)
  }

  predicate InWord(c: char) {
    IsAlpha(c) || IsDigit(c) || IsSymbol(c)
  }

  predicate InNumber(c: char) {
    IsDigit(c) || c == '.'
  }

  /** The classes by their code points: letters, underscore and percent start a name, digits continue it. */
  lemma Classes(c: char)
    ensures var n := c as int;
            && (StartsWord(c) <==> 0x41 <= n <= 0x5A || 0x61 <= n <= 0x7A || n == 0x5F || n == 0x25)
            && (InWord(c) <==> StartsWord(c) || 0x30 <= n <= 0x39)
            && (InNumber(c) <==> 0x30 <= n <= 0x39 || n == 0x2E)
            && (IsDigit(c) <==> 0x30 <= n <= 0x39)
            && (IsBlank(c) <==> n == 0x20 || n == 0x09)
  {}

  /** The comparison operators are these six. */
  lemma Comparisons(t: Token)
    ensures IsCompareOp(t) <==> t.Less? || t.Lte? || t.Greater? || t.Gte? || t.Equals? || t.NotEquals?
  {}
}

/** Number constants: the text of a NUMBER token and its value.

    Constants are exact decimals (`real`).  What `strconv.ParseFloat(_, 32)` rejects, namely values
    that round to infinity in 32-bit floating point, is kept as an explicit failure. */
module Numbers {
  import opened Wrappers
  import opened Syntax

  /** The least value that rounds to infinity in float32: 2^128 - 2^103. */
  const FLOAT32_OVERFLOW: real := 340282356779733661637539395458142568448.0

  /** The integers that survive the printer's `int` conversion are below 2^63. */
  const INT64_LIMIT: int := 0x8000_0000_0000_0000

  predicate AllDigits(s: string) {
    forall i :: 0 <= i < |s| ==> IsDigit(s[i])
  }

  function CountDots(s: string): (n: nat) {
    if s == "" then 0 else CountDots(s[..|s| - 1]) + if s[|s| - 1] == '.' then 1 else 0
  }

  /** What the lexer accepts as a NUMBER: a digit, then digits and at most one dot. */
  predicate IsNumeral(s: string) {
    && s != "" && IsDigit(s[0])
    && (forall i :: 0 <= i < |s| ==> InNumber(s[i]))
    && CountDots(s) <= 1
  }

  function DigitValue(c: char): (d: nat)
    requires IsDigit(c)
    ensures d < 10
  {
    c as int - '0' as int
  }

  function DigitChar(d: nat): (c: char)
    requires d < 10
    ensures IsDigit(c) && DigitValue(c) == d
  {
    (d + '0' as int) as char
  }

  function Pow10(k: nat): (p: int)
    ensures p > 0
  {
    if k == 0 then 1 else 10 * Pow10(k - 1)
  }

  /** The digits of `s` read as one integer, dots ignored. */
  function DigitsOf(s: string): (n: nat)
    requires forall i :: 0 <= i < |s| ==> InNumber(s[i])
  {
    if s == "" then 0
    else
      var c := s[|s| - 1];
      assert InNumber(c);
      if c == '.' then DigitsOf(s[..|s| - 1]) else 10 * DigitsOf(s[..|s| - 1]) + DigitValue(c)
  }

  /** How many characters follow the first dot. */
  function FractionLength(s: string): (k: nat)
    ensures k <= |s|
  {
    if s == "" then 0 else if s[0] == '.' then |s| - 1 else FractionLength(s[1..])
  }

  function DecimalValue(s: string): (r: real)
    requires IsNumeral(s)
    ensures r >= 0.0
  {
    DigitsOf(s) as real / Pow10(FractionLength(s)) as real
  }

  /** `strconv.ParseFloat(s, 32)` on the text of a NUMBER token, which is always a numeral. */
  function ParseNumber(s: string): (r: Option<real>)
    ensures r.Some? ==> IsNumeral(s) && 0.0 <= r.value < FLOAT32_OVERFLOW
  {
    if IsNumeral(s) && DecimalValue(s) < FLOAT32_OVERFLOW then Some(DecimalValue(s)) else None
  }

  /** `strconv.Itoa` on a non-negative argument. */
  function Itoa(n: nat): (s: string)
    ensures s != "" && AllDigits(s)
  {
    if n < 10 then [DigitChar(n)] else Itoa(n / 10) + [DigitChar(n % 10)]
  }

  /** `NumExpr.String`: integral values below 2^63 print in full, the others through `fmt`, which
      stands for the `%.6g` verb. */
  function NumText(v: real, fmt: real -> string): (s: string) {
    if v == v.Floor as real && -INT64_LIMIT <= v.Floor < INT64_LIMIT then
      if v.Floor >= 0 then Itoa(v.Floor) else "-" + Itoa(-v.Floor)
    else fmt(v)
  }

  /** The text printed for `v` is a numeral that reads back as `v`. */
  predicate Reprints(v: real, fmt: real -> string) {
    ParseNumber(NumText(v, fmt)) == Some(v)
  }

  lemma {:induction false} NoDots(s: string)
    requires AllDigits(s)
    ensures CountDots(s) == 0
  {
    if s == "" {
    } else {
      NoDots(s[..|s| - 1]);
    }
  }

  lemma {:induction false} NoFraction(s: string)
    requires AllDigits(s)
    ensures FractionLength(s) == 0
  {
    if s == "" {
    } else {
      NoFraction(s[1..]);
    }
  }

  lemma {:induction false} DigitsOfItoa(n: nat)
    ensures DigitsOf(Itoa(n)) == n
  {
    if n < 10 {
    } else {
      var s := Itoa(n);
      assert s[..|s| - 1] == Itoa(n / 10);
      DigitsOfItoa(n / 10);
    }
  }

  /** Integer constants print and read back exactly, whatever the format of the others. */
  lemma IntegersReprint(n: nat, fmt: real -> string)
    requires n < 0x8000_0000_0000_0000
    ensures Reprints(n as real, fmt)
  {
    var s := Itoa(n);
    NoDots(s);
    NoFraction(s);
    DigitsOfItoa(n);
    assert (n as real).Floor == n;
  }

  // ----- numerals digit by digit -----

  /** The first digit of a number without a dot counts for a power of ten. */
  lemma {:induction false} LeadingDigit(c: char, s: string)
    requires IsDigit(c) && AllDigits(s)
    ensures DigitsOf([c] + s) == InFront(DigitValue(c), Pow10(|s|), DigitsOf(s))
  {
    var t := [c] + s;
    if s != "" {
      assert t[..|t| - 1] == [c] + s[..|s| - 1] && t[|t| - 1] == s[|s| - 1];
      LeadingDigit(c, s[..|s| - 1]);
      assert DigitsOf(t) == 10 * DigitsOf([c] + s[..|s| - 1]) + DigitValue(s[|s| - 1]);
      TenTimes(DigitValue(c), Pow10(|s| - 1));
    } else {
      assert t[..0] == "" && t[0] == c;
    }
  }

  lemma TenTimes(d: nat, p: int)
    ensures 10 * (d * p) == d * (10 * p)
  {}

  /** Digits behind a dot: each counts for a tenth of the one before. */
  function FractionOf(s: string): (r: real)
    requires AllDigits(s)
  {
    if s == "" then 0.0 else (DigitValue(s[0]) as real + FractionOf(s[1..])) / 10.0
  }

  /** `f` is `n` of `p` equal shares. */
  predicate IsShare(f: real, p: int, n: int) {
    f * p as real == n as real
  }

  /** The number with `d` in front of `q`, which has as many digits as `p` has zeros. */
  function InFront(d: int, p: int, q: int): (n: int) {
    d * p + q
  }

  lemma {:induction false} FractionIsShare(s: string)
    requires AllDigits(s)
    ensures IsShare(FractionOf(s), Pow10(|s|), DigitsOf(s))
  {
    if s != "" {
      FractionIsShare(s[1..]);
      FirstDigit(s);
      ShareOfTen(DigitValue(s[0]), Pow10(|s| - 1), DigitsOf(s[1..]), FractionOf(s[1..]), FractionOf(s), Pow10(|s|), DigitsOf(s));
    }
  }

  lemma {:induction false} FirstDigit(s: string)
    requires s != "" && AllDigits(s)
    ensures DigitsOf(s) == InFront(DigitValue(s[0]), Pow10(|s| - 1), DigitsOf(s[1..]))
  {
    assert s == [s[0]] + s[1..];
    LeadingDigit(s[0], s[1..]);
  }

  lemma ShareOfTen(d: nat, p: int, q: nat, f: real, f': real, p': int, n: nat)
    requires IsShare(f, p, q) && f' == (d as real + f) / 10.0 && p' == 10 * p && n == InFront(d, p, q)
    ensures IsShare(f', p', n)
  {
    calc {
      f' * p' as real;
      (d as real + f) * p as real;
      d as real * p as real + f * p as real;
      n as real;
    }
  }

  lemma {:induction false} DotSplits(a: string, b: string)
    requires AllDigits(a) && AllDigits(b)
    ensures var s := a + "." + b;
            && CountDots(s) == 1 && FractionLength(s) == |b|
            && (forall i :: 0 <= i < |s| ==> InNumber(s[i]))
            && DigitsOf(s) == InFront(DigitsOf(a), Pow10(|b|), DigitsOf(b))
  {
    DotLength(a, b);
    DotDigits(a, b);
  }

  lemma {:induction false} DotLength(a: string, b: string)
    requires AllDigits(a)
    ensures FractionLength(a + "." + b) == |b|
  {
    var s := a + "." + b;
    if a != "" {
      assert s[0] == a[0] && s[1..] == a[1..] + "." + b;
      DotLength(a[1..], b);
    }
  }

  lemma {:induction false} DotDigits(a: string, b: string)
    requires AllDigits(a) && AllDigits(b)
    ensures var s := a + "." + b;
            && CountDots(s) == 1 && (forall i :: 0 <= i < |s| ==> InNumber(s[i]))
            && DigitsOf(s) == InFront(DigitsOf(a), Pow10(|b|), DigitsOf(b))
  {
    var s := a + "." + b;
    if b == "" {
      assert s[..|s| - 1] == a && s[|s| - 1] == '.';
      NoDots(a);
    } else {
      var b' := b[..|b| - 1];
      assert s[..|s| - 1] == a + "." + b' && s[|s| - 1] == b[|b| - 1];
      DotDigits(a, b');
      TenTimes(DigitsOf(a), Pow10(|b'|));
    }
  }

  lemma Quotient(a: nat, p: int, b: nat, f: real, n: nat)
    requires p > 0 && IsShare(f, p, b) && n == InFront(a, p, b)
    ensures n as real / p as real == a as real + f
  {
    assert n as real == (a as real + f) * p as real;
  }

  lemma {:induction false} DecimalIs(a: string, b: string)
    requires a != "" && AllDigits(a) && AllDigits(b)
    ensures IsNumeral(a + "." + b) && DecimalValue(a + "." + b) == DigitsOf(a) as real + FractionOf(b)
  {
    var s := a + "." + b;
    DotSplits(a, b);
    FractionIsShare(b);
    assert s[0] == a[0];
    Quotient(DigitsOf(a), Pow10(|b|), DigitsOf(b), FractionOf(b), DigitsOf(s));
  }

  /** A numeral with a dot is the number before it and the fraction behind it. */
  lemma {:induction false} DecimalReads(a: string, b: string)
    requires a != "" && AllDigits(a) && AllDigits(b)
    ensures var v := DigitsOf(a) as real + FractionOf(b);
            ParseNumber(a + "." + b) == if v < FLOAT32_OVERFLOW then Some(v) else None
  {
    DecimalIs(a, b);
  }

  /** A numeral without a dot is its digits. */
  lemma {:induction false} WholeReads(a: string)
    requires a != "" && AllDigits(a)
    ensures ParseNumber(a) == if DigitsOf(a) as real < FLOAT32_OVERFLOW then Some(DigitsOf(a) as real) else None
  {
    NoDots(a);
    NoFraction(a);
    assert IsNumeral(a) && Pow10(0) == 1;
    assert DecimalValue(a) == DigitsOf(a) as real / 1.0;
  }
}

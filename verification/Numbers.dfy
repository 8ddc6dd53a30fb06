/** Numbers as text: itoa, and the hexadecimal digits of put_int. */
module Numbers {
  import opened Options

  type Char = int

  const INT_MIN := -0x8000_0000
  const INT_MAX := 0x7fff_ffff
  const ZERO: Char := 48
  const MINUS: Char := 45
  const LOWER_A: Char := 97
  const UPPER_A: Char := 65

  function Reversed<T>(s: seq<T>): (r: seq<T>)
    ensures |r| == |s|
  {
    if s == [] then [] else Reversed(s[1..]) + [s[0]]
  }

  lemma {:induction false} ReversedAt<T>(s: seq<T>, k: nat)
    requires k < |s|
    ensures Reversed(s)[k] == s[|s| - 1 - k]
  {
    if k < |s| - 1 {
      ReversedAt(s[1..], k);
    }
  }

  // ----- itoa -----

  predicate Int(n: int) {
    INT_MIN <= n <= INT_MAX
  }

  predicate Base(b: nat) {
    2 <= b <= 36
  }

  /** C's division: towards zero. */
  function CDiv(n: int, b: nat): int
    requires b > 0
  {
    if n >= 0 then n / b else -(-n / b)
  }

  /** C's remainder: it has the sign of the dividend. */
  function CRem(n: int, b: nat): int
    requires b > 0
  {
    n - CDiv(n, b) * b
  }

  /** Unary minus on a 32-bit word. */
  function Negated(n: int): int {
    if n == INT_MIN then INT_MIN else -n
  }

  function DigitChar(rem: int): Char {
    if rem > 9 then rem - 10 + LOWER_A else rem + ZERO
  }

  /** The characters in the order the digit loop writes them. */
  function LowFirst(n: int, b: nat): seq<Char>
    requires b >= 2
    decreases if n < 0 then -n else n
  {
    if n == 0 then [] else (Shrinks(n, b); [DigitChar(CRem(n, b))] + LowFirst(CDiv(n, b), b))
  }

  lemma Shrinks(n: int, b: nat)
    requires b >= 2 && n != 0
    ensures if n > 0 then 0 <= CDiv(n, b) < n && 0 <= CRem(n, b) < b else n < CDiv(n, b) <= 0 && 0 < CRem(n, b) + b <= b
    ensures n == CDiv(n, b) * b + CRem(n, b)
  {
    if n < 0 {
      DivBounds(-n, b);
    } else {
      DivBounds(n, b);
    }
  }

  lemma DivBounds(n: nat, b: nat)
    requires b >= 2 && n > 0
    ensures 0 <= n / b < n && 0 <= n - n / b * b < b
  {
    assert n == n / b * b + n % b;
    assert n / b * 2 <= n / b * b;
  }

  /** What itoa stores before it reverses. */
  function Backwards(num: int, base: nat): seq<Char>
    requires base >= 2
  {
    if num < 0 && base == 10 then LowFirst(Negated(num), base) + [MINUS] else LowFirst(num, base)
  }

  function Itoa(num: int, base: nat): seq<Char>
    requires base >= 2
  {
    if num == 0 then [ZERO] else Reversed(Backwards(num, base))
  }

  // ----- reading the text back -----

  function DigitValue(c: Char): int {
    if ZERO <= c <= ZERO + 9 then c - ZERO else if LOWER_A <= c < LOWER_A + 26 then c - LOWER_A + 10 else -1
  }

  function Value(s: seq<Char>, base: nat): Option<int>
    decreases |s|
  {
    if s == [] then Some(0)
    else
      var d := DigitValue(s[|s| - 1]);
      match Value(s[..|s| - 1], base)
      case None => None
      case Some(v) => if 0 <= d < base then Some(v * base + d) else None
  }

  /** An optional minus sign and at least one digit. */
  function Parse(s: seq<Char>, base: nat): Option<int> {
    if s == [] then None
    else if s[0] != MINUS then Value(s, base)
    else if |s| == 1 then None
    else match Value(s[1..], base) { case None => None case Some(v) => Some(-v) }
  }

  lemma LastReversed<T>(x: T, s: seq<T>)
    ensures var r := Reversed([x] + s); r[|r| - 1] == x && r[..|r| - 1] == Reversed(s)
  {
    assert ([x] + s)[1..] == s;
  }

  lemma FirstDigit(n: int, base: nat)
    requires base >= 2 && n != 0
    ensures LowFirst(n, base) == [DigitChar(CRem(n, base))] + LowFirst(CDiv(n, base), base)
  {
  }

  lemma ValueAppends(s: seq<Char>, base: nat, v: int, d: int)
    requires Base(base) && Value(s, base) == Some(v) && 0 <= d < base
    ensures Value(s + [DigitChar(d)], base) == Some(v * base + d)
  {
    var r := s + [DigitChar(d)];
    assert r[..|r| - 1] == s;
    assert DigitValue(DigitChar(d)) == d;
  }

  lemma {:induction false} PositiveReadsBack(n: nat, base: nat)
    requires Base(base)
    ensures Value(Reversed(LowFirst(n, base)), base) == Some(n)
    ensures n > 0 ==> LowFirst(n, base) != [] && Reversed(LowFirst(n, base))[0] != MINUS
    decreases n
  {
    if n > 0 {
      hide LowFirst, CDiv, CRem, Value;
      Shrinks(n, base);
      FirstDigit(n, base);
      var q, d := CDiv(n, base), CRem(n, base);
      PositiveReadsBack(q, base);
      LastReversed(DigitChar(d), LowFirst(q, base));
      var r, front := Reversed(LowFirst(n, base)), Reversed(LowFirst(q, base));
      assert r == front + [DigitChar(d)];
      ValueAppends(front, base, q, d);
      if q > 0 {
        assert r[0] == front[0];
      } else {
        NothingLeft(base);
      }
    }
  }

  lemma NothingLeft(base: nat)
    requires base >= 2
    ensures LowFirst(0, base) == []
  {
  }

  /** The digits of a negative number come out at or below '0', the leading one below: no number, or zero. */
  lemma {:induction false} NegativeIsUnreadable(n: int, base: nat)
    requires Base(base) && n < 0
    ensures var r := Reversed(LowFirst(n, base));
            && r != [] && Value(r, base) == None
            && (|r| > 1 ==> Value(r[1..], base) in {None, Some(0)})
    decreases -n
  {
    hide LowFirst, CDiv, CRem;
    Shrinks(n, base);
    FirstDigit(n, base);
    NothingLeft(base);
    var q, d := CDiv(n, base), CRem(n, base);
    LastReversed(DigitChar(d), LowFirst(q, base));
    var r := Reversed(LowFirst(n, base));
    if q < 0 {
      NegativeIsUnreadable(q, base);
      var p := Reversed(LowFirst(q, base));
      assert r[1..][..|r| - 2] == p[1..];
      assert r[1..][|r| - 2] == r[|r| - 1];
    } else {
      assert n == d;
    }
  }

  lemma ZeroReadsBack(base: nat)
    requires Base(base)
    ensures Value([ZERO], base) == Some(0)
  {
    assert [ZERO][..0] == [];
  }

  /** itoa's text denotes its number exactly for non-negative numbers, and for negative ones in base 10 other than the
      least, whose negation overflows. */
  lemma ItoaRoundTrip(num: int, base: nat)
    requires Int(num) && Base(base)
    ensures Parse(Itoa(num, base), base) == Some(num) <==> num >= 0 || (base == 10 && num != INT_MIN)
  {
    hide LowFirst, Value;
    if num > 0 {
      PositiveReadsBack(num, base);
    } else if num < 0 && base == 10 {
      var n := Negated(num);
      LastOfReversed(LowFirst(n, base), MINUS);
      if num != INT_MIN {
        PositiveReadsBack(n, base);
      } else {
        NegativeIsUnreadable(n, base);
      }
    } else if num < 0 {
      NegativeIsUnreadable(num, base);
    } else {
      ZeroReadsBack(base);
    }
  }

  lemma {:induction false} LastOfReversed<T>(s: seq<T>, x: T)
    ensures Reversed(s + [x]) == [x] + Reversed(s)
  {
    if s == [] {
      assert s + [x] == [x] + s;
      LastReversed(x, s);
    } else {
      assert (s + [x])[1..] == s[1..] + [x];
      LastOfReversed(s[1..], x);
    }
  }

  /** A number as one writes it: no leading zero, no minus sign before a zero. */
  predicate Tidy(s: seq<Char>) {
    s != [] && (s == [ZERO] || (s[0] != MINUS && s[0] != ZERO) || (s[0] == MINUS && |s| > 1 && s[1] != ZERO))
  }

  lemma {:induction false} LeadingDigit(n: nat, base: nat)
    requires Base(base) && n > 0
    ensures LowFirst(n, base) != [] && Reversed(LowFirst(n, base))[0] != ZERO
    decreases n
  {
    hide LowFirst, CDiv, CRem;
    Shrinks(n, base);
    FirstDigit(n, base);
    NothingLeft(base);
    var q, d := CDiv(n, base), CRem(n, base);
    LastReversed(DigitChar(d), LowFirst(q, base));
    var r := Reversed(LowFirst(n, base));
    if q > 0 {
      LeadingDigit(q, base);
      assert r[0] == Reversed(LowFirst(q, base))[0];
    } else {
      assert n == d;
    }
  }

  lemma DigitIs(c: Char)
    requires DigitValue(c) >= 0
    ensures DigitChar(DigitValue(c)) == c
  {
  }

  lemma DivBack(v: nat, d: nat, b: nat)
    requires 2 <= b && d < b
    ensures CDiv(v * b + d, b) == v && CRem(v * b + d, b) == d
  {
    var n := v * b + d;
    assert n == n / b * b + n % b;
    OneQuotient(n / b, n % b, v, d, b);
  }

  lemma OneQuotient(q: nat, r: nat, v: nat, d: nat, b: nat)
    requires q * b + r == v * b + d && r < b && d < b
    ensures q == v && r == d
  {
    if q < v {
      Apart(q, v, b);
    } else if v < q {
      Apart(v, q, b);
    }
  }

  lemma Apart(q: nat, v: nat, b: nat)
    requires q < v
    ensures q * b + b <= v * b
  {
    assert (q + 1) * b <= v * b;
  }

  /** The only text without a leading zero for a positive value is the reversed digits. */
  lemma {:induction false} DigitsUnique(s: seq<Char>, base: nat)
    requires Base(base) && s != [] && s[0] != ZERO && Value(s, base).Some?
    ensures var v := Value(s, base).value; v > 0 && s == Reversed(LowFirst(v, base))
    decreases |s|
  {
    hide LowFirst, CDiv, CRem;
    var p, c := s[..|s| - 1], s[|s| - 1];
    assert s == p + [c];
    DigitIs(c);
    var d := DigitValue(c);
    var v := Value(p, base).value * base + d;
    NothingLeft(base);
    if p != [] {
      DigitsUnique(p, base);
    }
    assert Value(p, base).value >= 0;
    Positive(Value(p, base).value, base, d);
    DivBack(Value(p, base).value, d, base);
    FirstDigit(v, base);
    LastReversed(DigitChar(d), LowFirst(Value(p, base).value, base));
  }

  lemma Positive(v: nat, b: nat, d: nat)
    requires b >= 2 && (v > 0 || d > 0)
    ensures v * b + d > 0
  {
  }

  /** Where it denotes its number, itoa's text is the only tidy one that does. */
  lemma ItoaUnique(num: int, base: nat, s: seq<Char>)
    requires Int(num) && Base(base) && (num >= 0 || (base == 10 && num != INT_MIN))
    ensures Tidy(s) && Parse(s, base) == Some(num) <==> s == Itoa(num, base)
  {
    hide LowFirst, Value, Reversed;
    ItoaRoundTrip(num, base);
    ItoaTidy(num, base);
    if Tidy(s) && Parse(s, base) == Some(num) {
      if s == [ZERO] {
        ZeroReadsBack(base);
      } else if s[0] == MINUS {
        DigitsUnique(s[1..], base);
        LastOfReversed(LowFirst(-num, base), MINUS);
        assert s == [MINUS] + s[1..];
      } else {
        DigitsUnique(s, base);
      }
    }
  }

  lemma ItoaTidy(num: int, base: nat)
    requires Int(num) && Base(base) && (num >= 0 || (base == 10 && num != INT_MIN))
    ensures Tidy(Itoa(num, base))
  {
    hide LowFirst, Reversed;
    if num > 0 {
      LeadingDigit(num, base);
      PositiveReadsBack(num, base);
    } else if num < 0 {
      LeadingDigit(-num, base);
      LastOfReversed(LowFirst(-num, base), MINUS);
    }
  }

  // ----- put_int -----

  function HexChar(low: nat): nat {
    if low <= 9 then low + ZERO else low - 10 + UPPER_A
  }

  /** The digits from the right end of the buffer to the left. */
  function HexLow(n: nat): seq<nat> {
    if n == 0 then [] else [HexChar(n % 16)] + HexLow(n / 16)
  }

  function Hex(n: nat): seq<nat> {
    if n == 0 then [ZERO] else Reversed(HexLow(n))
  }

  function HexDigit(c: Char): int {
    if ZERO <= c <= ZERO + 9 then c - ZERO else if UPPER_A <= c < UPPER_A + 6 then c - UPPER_A + 10 else -1
  }

  predicate IsHex(s: seq<Char>) {
    s != [] && forall i | 0 <= i < |s| :: HexDigit(s[i]) >= 0
  }

  function HexValue(s: seq<Char>): int
    decreases |s|
  {
    if s == [] then 0 else HexValue(s[..|s| - 1]) * 16 + HexDigit(s[|s| - 1])
  }

  predicate Canonical(s: seq<Char>) {
    IsHex(s) && (|s| > 1 ==> s[0] != ZERO)
  }

  lemma HexStep(n: nat)
    ensures Hex(n) == if n < 16 then [HexChar(n)] else Hex(n / 16) + [HexChar(n % 16)]
  {
    if n > 0 {
      LastReversed(HexChar(n % 16), HexLow(n / 16));
      var r := Hex(n);
      assert r == r[..|r| - 1] + [r[|r| - 1]];
      if n < 16 {
        assert HexLow(n / 16) == [];
      }
    }
  }

  lemma HexAppend(s: seq<Char>, d: nat)
    requires Canonical(s) && s[0] != ZERO && d < 16
    ensures var r := s + [HexChar(d)]; Canonical(r) && r[0] != ZERO && HexValue(r) == HexValue(s) * 16 + d
  {
    var r := s + [HexChar(d)];
    assert r[..|r| - 1] == s;
    assert HexDigit(HexChar(d)) == d;
  }

  /** put_int's text reads back as the number, in hexadecimal digits without leading zeros. */
  lemma {:induction false} HexReadsBack(n: nat)
    ensures HexValue(Hex(n)) == n && Canonical(Hex(n)) && (n > 0 ==> Hex(n)[0] != ZERO)
    decreases n
  {
    hide Hex;
    HexStep(n);
    if n >= 16 {
      HexReadsBack(n / 16);
      HexAppend(Hex(n / 16), n % 16);
    } else {
      assert [HexChar(n)][..0] == [];
      assert HexDigit(HexChar(n)) == n;
    }
  }

  /** The only text without leading zeros for a value is the one put_int prints. */
  lemma {:induction false} HexUnique(s: seq<Char>)
    requires Canonical(s)
    ensures HexValue(s) >= 0 && s == Hex(HexValue(s)) && (s[0] != ZERO ==> HexValue(s) > 0)
    decreases |s|
  {
    hide Hex;
    var p, c := s[..|s| - 1], s[|s| - 1];
    assert s == p + [c];
    var d := HexDigit(c);
    assert 0 <= d < 16 && HexChar(d) == c;
    if p == [] {
      assert HexValue(p) == 0;
      HexStep(d);
    } else {
      HexUnique(p);
      var v := HexValue(p);
      assert (v * 16 + d) / 16 == v && (v * 16 + d) % 16 == d;
      HexStep(v * 16 + d);
    }
  }

  lemma {:induction false} HexFits(n: nat, k: nat)
    requires n < Power16(k)
    ensures |HexLow(n)| <= k
    decreases k
  {
    if n > 0 {
      HexFits(n / 16, k - 1);
    }
  }

  function Power16(k: nat): (p: nat)
    ensures p > 0
  {
    if k == 0 then 1 else 16 * Power16(k - 1)
  }
}

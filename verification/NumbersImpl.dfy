/** itoa and put_int on their own buffers: digits stored one by one, the text reversed in place. */
module NumberBuffers {
  import opened Numbers
  import T = Terminal
  import D = TerminalObjects

  /** The swapping loop at the end of itoa, on the first n characters. */
  method ReverseInPlace(str: array<Char>, n: nat)
    requires n <= str.Length
    modifies str
    ensures str[..n] == Reversed(old(str[..n]))
    ensures forall k | n <= k < str.Length :: str[k] == old(str[k])
  {
    ghost var was := str[..];
    var j := 0;
    while j < n / 2
      invariant j <= n / 2
      invariant forall k | n <= k < str.Length :: str[k] == was[k]
      invariant forall k | 0 <= k < j :: str[k] == was[n - 1 - k] && str[n - 1 - k] == was[k]
      invariant forall k | j <= k < n - j :: str[k] == was[k]
    {
      var tmp := str[j];
      str[j] := str[n - j - 1];
      str[n - j - 1] := tmp;
      j := j + 1;
    }
    forall k: nat | k < n ensures str[..n][k] == Reversed(was[..n])[k] {
      ReversedAt(was[..n], k);
    }
  }

  lemma DigitStep(n: int, base: nat)
    requires 2 <= base && n != 0
    ensures LowFirst(n, base) == [DigitChar(CRem(n, base))] + LowFirst(CDiv(n, base), base)
    ensures Size(CDiv(n, base)) < Size(n)
  {
    Shrinks(n, base);
  }

  function Size(n: int): nat {
    if n < 0 then -n else n
  }

  /** The digit loop of itoa. */
  method StoreDigits(num: int, str: array<Char>, base: nat) returns (i: nat)
    requires 2 <= base < 256 && |LowFirst(num, base)| <= str.Length
    modifies str
    ensures i == |LowFirst(num, base)| && str[..i] == LowFirst(num, base)
    ensures forall k | i <= k < str.Length :: str[k] == old(str[k])
  {
    hide LowFirst, CDiv, CRem, DigitChar;
    var n := num;
    i := 0;
    NoDigits(base);
    while n != 0
      invariant i + |LowFirst(n, base)| == |LowFirst(num, base)|
      invariant str[..i] + LowFirst(n, base) == LowFirst(num, base)
      invariant forall k | i <= k < str.Length :: str[k] == old(str[k])
      decreases Size(n)
    {
      DigitStep(n, base);
      var rem := CRem(n, base);
      ghost var before := str[..i];
      str[i] := DigitChar(rem);
      assert str[..i + 1] == before + [DigitChar(rem)];
      i := i + 1;
      n := CDiv(n, base);
    }
  }

  lemma NoDigits(base: nat)
    requires base >= 2
    ensures LowFirst(0, base) == []
  {
  }

  /** Any base a byte can hold from 2 on; the caller gives room for the text and its terminating zero. */
  method Itoa(num: int, str: array<Char>, base: nat)
    requires Int(num) && 2 <= base < 256 && |Numbers.Itoa(num, base)| < str.Length
    modifies str
    ensures var text := Numbers.Itoa(num, base);
            str[..|text|] == text && str[|text|] == 0 && str[|text| + 1..] == old(str[|text| + 1..])
  {
    hide LowFirst, Reversed;
    ghost var was := str[..];
    if num == 0 {
      str[0] := ZERO;
      str[1] := 0;
      assert str[..1] == [ZERO] && str[2..] == was[2..];
      return;
    }
    var isNeg, n := false, num;
    if n < 0 && base == 10 {
      isNeg := true;
      n := Negated(n);
    }
    var i := StoreDigits(n, str, base);
    if isNeg {
      str[i] := MINUS;
      i := i + 1;
    }
    assert str[..i] == Backwards(num, base);
    str[i] := 0;
    assert str[..i] == Backwards(num, base);
    ReverseInPlace(str, i);
  }

  /** The index of the digit buffer is one byte wide. */
  function Byte(n: int): nat {
    n % 256
  }

  /** The digits of put_int. All eight buffer cells may be used, and the index then wraps below zero and back. */
  method HexDigits(num: nat) returns (text: seq<nat>)
    requires num < 0x1_0000_0000
    ensures text == Hex(num)
  {
    hide HexLow, Reversed, Byte;
    var forPrint := new nat[9](_ => 0);
    var off := 7;
    FitsEight(num);
    if num == 0 {
      forPrint[off] := ZERO;
      NextByte(1);
      off := Byte(off - 1);
      off := Byte(off + 1);
      assert forPrint[off..8] == [ZERO];
      return forPrint[off..8];
    }
    off := StoreHex(num, forPrint);
    NextByte(|HexLow(num)|);
    off := Byte(off + 1);
    text := forPrint[off..8];
  }

  /** The increment after the loop undoes the wrap. */
  lemma NextByte(k: nat)
    requires k <= 8
    ensures Byte(Byte(7 - k) + 1) == 8 - k
  {
  }

  /** The loop of put_int, and the index after it. */
  method StoreHex(num: nat, forPrint: array<nat>) returns (off: nat)
    requires |HexLow(num)| <= 8 && forPrint.Length == 9
    modifies forPrint
    ensures off == Byte(7 - |HexLow(num)|) && forPrint[8 - |HexLow(num)|..8] == Reversed(HexLow(num))
  {
    hide Reversed, HexLow, Byte;
    off := 7;
    var numTmp := num;
    ghost var k := 0;
    NextOff(0);
    while numTmp != 0
      invariant k + |HexLow(numTmp)| == |HexLow(num)| && off == Byte(7 - k)
      invariant Reversed(HexLow(numTmp)) + forPrint[8 - k..8] == Reversed(HexLow(num))
    {
      HexLowStep(numTmp);
      NextOff(k);
      var low := numTmp % 16;
      var p := if 0 <= low <= 9 then low + ZERO else low - 10 + UPPER_A;
      ghost var before, rest := forPrint[8 - k..8], HexLow(numTmp / 16);
      forPrint[off] := p;
      assert forPrint[8 - (k + 1)..8] == [p] + before;
      DigitMoves(p, rest, before);
      k := k + 1;
      off := Byte(off - 1);
      numTmp := numTmp / 16;
    }
    HexLowStep(0);
    NoneReversed();
    assert [] + forPrint[8 - k..8] == forPrint[8 - k..8];
  }

  lemma NextOff(k: nat)
    requires k < 8
    ensures Byte(7 - k) == 7 - k && Byte(7 - k - 1) == Byte(7 - (k + 1))
  {
  }

  /** The lowest digit left of the number goes in front of those stored. */
  lemma DigitMoves(x: nat, rest: seq<nat>, stored: seq<nat>)
    ensures Reversed([x] + rest) + stored == Reversed(rest) + ([x] + stored)
  {
    hide Reversed;
    FrontReversed(x, rest);
    assert (Reversed(rest) + [x]) + stored == Reversed(rest) + ([x] + stored);
  }

  lemma FrontReversed(x: nat, s: seq<nat>)
    ensures Reversed([x] + s) == Reversed(s) + [x]
  {
    assert ([x] + s)[1..] == s;
  }

  lemma HexLowStep(n: nat)
    ensures HexLow(n) == if n == 0 then [] else [HexChar(n % 16)] + HexLow(n / 16)
  {
  }

  lemma NoneReversed()
    ensures Reversed<nat>([]) == []
  {
  }

  /** put_int */
  method PutInt(num: nat, display: D.Display)
    requires num < 0x1_0000_0000 && display.Valid()
    modifies display`cursor, display.video
    ensures display.Valid() && !T.RunsOff(old(display.Abs()), Hex(num))
            && display.Abs() == T.PutStr(old(display.Abs()), Hex(num))
  {
    var text := HexDigits(num);
    HexStaysOn(num, display.Abs());
    var ok := display.PutStr(text);
  }

  lemma FitsEight(num: nat)
    requires num < 0x1_0000_0000
    ensures |HexLow(num)| <= 8
  {
    assert Power16(4) == 0x1_0000;
    assert Power16(8) == 16 * 16 * 16 * 16 * Power16(4);
    HexFits(num, 8);
  }

  lemma HexStaysOn(num: nat, s: T.Screen)
    requires T.Valid(s)
    ensures !T.RunsOff(s, Hex(num))
  {
    HexReadsBack(num);
    forall c | c in Hex(num) ensures c != T.BACKSPACE {
      var i :| 0 <= i < |Hex(num)| && Hex(num)[i] == c;
      assert HexDigit(Hex(num)[i]) >= 0;
    }
    T.WithoutBackspace(s, Hex(num));
  }
}

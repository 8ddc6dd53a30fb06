/** A 32-bit word as four bytes, least significant first. */
module Words {

  const WORDS: nat := 0x1_0000_0000

  function Place(j: nat): nat
    requires j < 4
  {
    [1, 0x100, 0x1_0000, 0x100_0000][j]
  }

  function GetByte(w: nat, j: nat): (b: nat)
    requires j < 4
    ensures b < 256
  {
    w / Place(j) % 256
  }

  /** The word after byte j is stored over. */
  function PutByte(w: nat, j: nat, b: nat): nat
    requires j < 4 && b < 256
  {
    w % Place(j) + b * Place(j) + if j == 3 then 0 else w % WORDS / Place(j + 1) * Place(j + 1)
  }

  /** The word w after the j lowest bytes of x are stored over its own. */
  function Mixed(w: nat, x: nat, j: nat): nat
    requires j <= 4
  {
    if j == 0 then w
    else if j == 4 then x % WORDS
    else x % Place(j) + w % WORDS / Place(j) * Place(j)
  }

  lemma DivMod(a: nat, k: nat, q: nat, r: nat)
    requires k > 0 && r < k && a == q * k + r
    ensures a / k == q && a % k == r
  {
    var d := a / k - q;
    assert d * k == r - a % k;
    Away(d, k);
  }

  lemma Away(d: int, k: nat)
    ensures d >= 1 ==> d * k >= k
    ensures d <= -1 ==> d * k + k <= 0
  {
  }

  /** The low half and the three-byte low part of a number, in bytes. */
  lemma LowBytes(x: nat)
    ensures x % 0x1_0000 == x % 0x100 + GetByte(x, 1) * 0x100
    ensures x % 0x100_0000 == x % 0x1_0000 + GetByte(x, 2) * 0x1_0000
    ensures x % WORDS == x % 0x100_0000 + GetByte(x, 3) * 0x100_0000
  {
    LowByte(x, 0x100);
    LowByte(x, 0x1_0000);
    LowByte(x, 0x100_0000);
  }

  lemma LowByte(x: nat, p: nat)
    requires p > 0
    ensures x % (p * 0x100) == x % p + x / p % 0x100 * p
  {
    var q, r := x / p, x % p;
    var q1, r1 := q / 0x100, q % 0x100;
    assert x == q * p + r && q == q1 * 0x100 + r1;
    assert q * p == q1 * (p * 0x100) + r1 * p;
    assert r1 * p + r < p * 0x100 by { Below(r1, p, r); }
    DivMod(x, p * 0x100, q1, r1 * p + r);
  }

  lemma Below(b: nat, p: nat, r: nat)
    requires b < 0x100 && r < p
    ensures b * p + r < p * 0x100
  {
    assert (0xff - b) * p >= 0;
  }

  /** Storing the next byte of x. */
  lemma PutMixes(w: nat, x: nat, j: nat)
    requires j < 4
    ensures PutByte(Mixed(w, x, j), j, GetByte(x, j)) == Mixed(w, x, j + 1)
  {
    LowBytes(x);
    if j == 1 {
      High(w, x);
    } else if j == 2 {
      Higher(w, x);
    } else if j == 3 {
      Low(w, x);
    }
  }

  /** Above the bytes stored so far the word is what it was. */
  lemma High(w: nat, x: nat)
    ensures var m := x % 0x100 + w % WORDS / 0x100 * 0x100;
            m % 0x100 == x % 0x100 && m % WORDS / 0x1_0000 == w % WORDS / 0x1_0000
  {
    var v, y := w % WORDS, x % 0x100;
    Regrouped(v / 0x100, y, 0x100);
    Whole(y + v / 0x100 * 0x100, v / 0x100, y, 0x100, 0x100_0000);
    Digits(v, 0x100);
  }

  lemma Higher(w: nat, x: nat)
    ensures var m := x % 0x1_0000 + w % WORDS / 0x1_0000 * 0x1_0000;
            m % 0x1_0000 == x % 0x1_0000 && m % WORDS / 0x100_0000 == w % WORDS / 0x100_0000
  {
    var v, y := w % WORDS, x % 0x1_0000;
    Regrouped(v / 0x1_0000, y, 0x1_0000);
    Whole(y + v / 0x1_0000 * 0x1_0000, v / 0x1_0000, y, 0x1_0000, 0x1_0000);
    Digits(v, 0x1_0000);
  }

  lemma Digits(v: nat, p: nat)
    requires p > 0
    ensures v / (p * 0x100) == v / p / 0x100
  {
    var q, r := v / p, v % p;
    assert r + q * p == v;
    Regrouped(q, r, p);
  }

  lemma Whole(m: nat, q: nat, y: nat, p: nat, k: nat)
    requires m == y + q * p && y < p && q < k && p * k == WORDS
    ensures m % WORDS == m
  {
    assert (k - 1 - q) * p >= 0;
    DivMod(m, WORDS, 0, m);
  }

  /** Replacing the digits below p changes none of the bytes above the next one. */
  lemma Regrouped(q: nat, y: nat, p: nat)
    requires y < p
    ensures (y + q * p) % p == y && (y + q * p) / (p * 0x100) == q / 0x100
  {
    var q1, r1 := q / 0x100, q % 0x100;
    DivMod(y + q * p, p, q, y);
    Below(r1, p, y);
    Split(q, q1, r1, p);
    DivMod(y + q * p, p * 0x100, q1, r1 * p + y);
  }

  lemma Split(q: nat, q1: nat, r1: nat, p: nat)
    requires q == q1 * 0x100 + r1
    ensures q * p == q1 * (p * 0x100) + r1 * p
  {
  }

  lemma Low(w: nat, x: nat)
    ensures (x % 0x100_0000 + w % WORDS / 0x100_0000 * 0x100_0000) % 0x100_0000 == x % 0x100_0000
  {
    DivMod(x % 0x100_0000 + w % WORDS / 0x100_0000 * 0x100_0000, 0x100_0000, w % WORDS / 0x100_0000, x % 0x100_0000);
  }
}

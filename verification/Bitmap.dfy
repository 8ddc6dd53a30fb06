/** The byte-packed bitmap: a set of naturals below `bitNum`, stored eight to a byte. */
module Bitmaps {

  const INT32_LIMIT: nat := 0x8000_0000

  function ByteLen(bitNum: nat): (n: nat)
    ensures bitNum <= 8 * n < bitNum + 8
  {
    if bitNum % 8 != 0 then bitNum / 8 + 1 else bitNum / 8
  }

  // ----- single-bit arithmetic on one byte -----

  function Mask(off: nat): bv8
    requires off < 8
  {
    (1 as bv8) << off
  }

  predicate TestBit(b: bv8, off: nat)
    requires off < 8
  {
    b & Mask(off) != 0
  }

  lemma SetOneBit(b: bv8, off: nat, j: nat)
    requires off < 8 && j < 8
    ensures TestBit(b | Mask(off), j) == (j == off || TestBit(b, j))
  {
    MaskValue(off);
    MaskValue(j);
  }

  lemma ClearOneBit(b: bv8, off: nat, j: nat)
    requires off < 8 && j < 8
    ensures TestBit(b & !Mask(off), j) == (j != off && TestBit(b, j))
  {
    MaskValue(off);
    MaskValue(j);
  }

  lemma MaskValue(off: nat)
    requires off < 8
    ensures Mask(off) == [1 as bv8, 2, 4, 8, 16, 32, 64, 128][off]
  {
    if off == 0 {} else if off == 1 {} else if off == 2 {} else if off == 3 {}
    else if off == 4 {} else if off == 5 {} else if off == 6 {} else {}
  }

  // ----- the specification of the scan, over sets -----

  predicate RunAt(bits: set<nat>, start: nat, val: nat, cnt: nat) {
    forall i | start <= i < start + cnt :: (if i in bits then 1 else 0) == val
  }

  /** The least start, at or after `from`, of `cnt` consecutive positions below `n` that all hold `val`; -1 if none. */
  function FirstFit(bits: set<nat>, n: nat, val: nat, cnt: nat, from: nat := 0): int
    decreases n - from
  {
    if from + cnt > n || from >= n then -1
    else if RunAt(bits, from, val, cnt) then from
    else FirstFit(bits, n, val, cnt, from + 1)
  }

  lemma {:induction false} FirstFitIsLeast(bits: set<nat>, n: nat, val: nat, cnt: nat, from: nat)
    requires cnt > 0
    ensures var r := FirstFit(bits, n, val, cnt, from);
            && (r == -1 <==> forall s: nat :: from <= s && s + cnt <= n ==> !RunAt(bits, s, val, cnt))
            && (r != -1 ==> from <= r && r + cnt <= n && RunAt(bits, r, val, cnt)
                            && forall s: nat :: from <= s < r ==> !RunAt(bits, s, val, cnt))
    decreases n - from
  {
    if from + cnt <= n && from < n && !RunAt(bits, from, val, cnt) {
      FirstFitIsLeast(bits, n, val, cnt, from + 1);
    }
  }

  /** Any least start is the one FirstFit finds. */
  lemma FirstFitUnique(bits: set<nat>, n: nat, val: nat, cnt: nat, r: int)
    requires cnt > 0
    requires r == -1 ==> forall s: nat :: s + cnt <= n ==> !RunAt(bits, s, val, cnt)
    requires r != -1 ==> 0 <= r && r + cnt <= n && RunAt(bits, r, val, cnt)
                         && forall s: nat :: s < r ==> !RunAt(bits, s, val, cnt)
    ensures r == FirstFit(bits, n, val, cnt)
  {
    FirstFitIsLeast(bits, n, val, cnt, 0);
    var f := FirstFit(bits, n, val, cnt);
    if r != -1 && f != -1 {
      assert !(f < r) && !(r < f);
    }
  }

  class Bitmap {
    const bytes: array<bv8>
    const bitNum: nat

    ghost predicate Valid() {
      ByteLen(bitNum) <= bytes.Length
    }

    predicate Bit(i: nat)
      requires Valid() && i < bitNum
      reads bytes
    {
      TestBit(bytes[i / 8], i % 8)
    }

    /** The abstract value. */
    function Bits(): (s: set<nat>)
      requires Valid()
      reads bytes
      ensures forall i | i in s :: i < bitNum
    {
      set i: nat | i < bitNum && Bit(i)
    }

    /** bitmap_init: the caller supplies the bytes; they are cleared. */
    constructor (base: array<bv8>, bitNum: nat)
      requires ByteLen(bitNum) <= base.Length
      modifies base
      ensures Valid() && bytes == base && this.bitNum == bitNum && Bits() == {}
      ensures forall k | ByteLen(bitNum) <= k < base.Length :: base[k] == old(base[k])
    {
      bytes := base;
      this.bitNum := bitNum;
      new;
      for k := 0 to ByteLen(bitNum)
        invariant forall j | 0 <= j < k :: base[j] == 0
        invariant forall j | k <= j < base.Length :: base[j] == old(base[j])
      {
        base[k] := 0;
      }
    }

    method Get(idx: nat) returns (r: nat)
      requires Valid() && idx < bitNum
      ensures r == if idx in Bits() then 1 else 0
    {
      var byteOff, bitOff := idx / 8, idx % 8;
      r := if bytes[byteOff] & Mask(bitOff) != 0 then 1 else 0;
    }

    method Set(idx: nat)
      requires Valid() && idx < bitNum
      modifies bytes
      ensures Bits() == old(Bits()) + {idx}
    {
      var byteOff, bitOff := idx / 8, idx % 8;
      forall j: nat | j < 8
        ensures TestBit(bytes[byteOff] | Mask(bitOff), j) == (j == bitOff || TestBit(bytes[byteOff], j))
      {
        SetOneBit(bytes[byteOff], bitOff, j);
      }
      bytes[byteOff] := bytes[byteOff] | Mask(bitOff);
      forall i: nat | i < bitNum ensures Bit(i) == (i == idx || old(Bit(i))) {
        assert i == 8 * (i / 8) + i % 8;
      }
    }

    method Clear(idx: nat)
      requires Valid() && idx < bitNum
      modifies bytes
      ensures Bits() == old(Bits()) - {idx}
    {
      var byteOff, bitOff := idx / 8, idx % 8;
      forall j: nat | j < 8
        ensures TestBit(bytes[byteOff] & !Mask(bitOff), j) == (j != bitOff && TestBit(bytes[byteOff], j))
      {
        ClearOneBit(bytes[byteOff], bitOff, j);
      }
      bytes[byteOff] := bytes[byteOff] & !Mask(bitOff);
      forall i: nat | i < bitNum ensures Bit(i) == (i != idx && old(Bit(i))) {
        assert i == 8 * (i / 8) + i % 8;
      }
    }

    /** The sliding-window scan. For cnt >= 1 it is first fit. For cnt == 0 the loop's test succeeds right
        after the first position that does not hold `val`, so the scan answers that position plus one. */
    method Scan(val: nat, cnt: nat) returns (r: int)
      requires Valid() && bitNum < INT32_LIMIT
      ensures cnt > 0 ==> r == FirstFit(Bits(), bitNum, val, cnt)
      ensures cnt == 0 && r == -1 ==> RunAt(Bits(), 0, val, bitNum)
      ensures cnt == 0 && r != -1 ==> 1 <= r <= bitNum && RunAt(Bits(), 0, val, r - 1) && !RunAt(Bits(), r - 1, val, 1)
    {
      var left, right := 0, 0;
      while right < bitNum
        invariant 0 <= left <= right <= bitNum
        invariant RunAt(Bits(), left, val, right - left)
        invariant left > 0 ==> !RunAt(Bits(), left - 1, val, 1)
        invariant cnt > 0 ==> right - left < cnt
        invariant cnt > 0 ==> forall s: nat | s < left && s + cnt <= bitNum :: !RunAt(Bits(), s, val, cnt)
        invariant cnt == 0 ==> left == 0
      {
        var bit := Get(right);
        if bit != val {
          ghost var was := left;
          left := right + 1;
          forall s: nat | was <= s < left && s + cnt <= bitNum && cnt > 0 ensures !RunAt(Bits(), s, val, cnt) {
            assert s <= right < s + cnt;
          }
        }
        if right - left + 1 == cnt {
          if cnt > 0 {
            FirstFitUnique(Bits(), bitNum, val, cnt, left);
          }
          return left;
        }
        right := right + 1;
      }
      if cnt > 0 {
        forall s: nat | s + cnt <= bitNum ensures !RunAt(Bits(), s, val, cnt) {
          assert s < left || left + cnt > bitNum;
        }
        FirstFitUnique(Bits(), bitNum, val, cnt, -1);
      }
      return -1;
    }
  }
}

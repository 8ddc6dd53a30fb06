/** memory.c on its own data: bitmaps in bytes, and page tables that are reached only through the recursive entry of the
    active directory. Every method is proved against the function of the same name on values. */
module PagingObjects {
  import opened Options
  import opened Paging
  import A = AddressSpaces
  import P = PageAllocation
  import B = Bitmaps
  import T = Translations
  import R = AddressSpaceRuns
  import W = Words

  lemma FirstFitFits(bits: set<nat>, n: nat, cnt: nat)
    requires cnt > 0
    ensures var r := B.FirstFit(bits, n, 0, cnt); r == -1 || (0 <= r && r + cnt <= n)
  {
    B.FirstFitIsLeast(bits, n, 0, cnt, 0);
  }

  lemma RangeGrows(i: nat, cnt: nat)
    ensures P.Range(i, 0) == {} && P.Range(i, cnt + 1) == P.Range(i, cnt) + {i + cnt}
  {
  }

  /** struct pool, in units of pages. */
  class PagePool {
    const btmp: B.Bitmap
    const base: nat

    ghost predicate Valid() {
      btmp.Valid() && btmp.bitNum < B.INT32_LIMIT
    }

    ghost function Abs(): A.Pool
      requires Valid()
      reads btmp.bytes
    {
      A.Pool(base, btmp.bitNum, btmp.Bits())
    }

    predicate InRange(page: nat) {
      base <= page < base + btmp.bitNum
    }

    /** pool_init: the bitmap is cleared in the bytes given. */
    constructor (bytes: array<bv8>, base: nat, pages: nat)
      requires B.ByteLen(pages) <= bytes.Length && pages < B.INT32_LIMIT
      modifies bytes
      ensures Valid() && btmp.bytes == bytes && Abs() == A.Pool(base, pages, {})
    {
      var map0 := new B.Bitmap(bytes, pages);
      btmp := map0;
      this.base := base;
    }

    method PaddrGet() returns (r: Option<nat>)
      requires Valid()
      modifies btmp.bytes
      ensures r == A.Grab(old(Abs()))
      ensures Abs() == if r.None? then old(Abs()) else A.Take(old(Abs()), r.value)
      ensures var bits := old(btmp.Bits());
              && (r.None? <==> forall i: nat | i < btmp.bitNum :: i in bits)
              && (r.Some? ==> InRange(r.value) && r.value - base !in bits && btmp.Bits() == bits + {r.value - base})
              && (r.Some? ==> forall i: nat | i < r.value - base :: i in bits)
    {
      LowestBit();
      var bitIdx := btmp.Scan(0, 1);
      if bitIdx == -1 {
        return None;
      }
      ghost var bits := btmp.Bits();
      B.FirstFitIsLeast(bits, btmp.bitNum, 0, 1, 0);
      btmp.Set(bitIdx);
      return Some(base + bitIdx);
    }

    lemma LowestBit()
      requires Valid()
      ensures var g := A.Grab(Abs());
              && (g.None? <==> forall i: nat | i < btmp.bitNum :: i in btmp.Bits())
              && (g.Some? ==> InRange(g.value) && g.value - base !in btmp.Bits())
              && (g.Some? ==> forall i: nat | i < g.value - base :: i in btmp.Bits())
    {
      BitsBounded();
      A.GrabIsFree(Abs());
      if A.Grab(Abs()).Some? {
        forall i: nat | i < A.Grab(Abs()).value - base ensures i in btmp.Bits() {
          assert A.Holds(Abs(), base + i);
        }
      }
    }

    lemma BitsBounded()
      requires Valid()
      ensures forall i | i in btmp.Bits() :: i < btmp.bitNum
    {
    }

    method VaddrGet(pgCnt: nat) returns (r: Option<nat>)
      requires Valid() && pgCnt > 0
      modifies btmp.bytes
      ensures r == P.VaddrGet(old(Abs()), pgCnt)
      ensures r.Some? ==> r.value >= base
      ensures Abs() == if r.None? then old(Abs()) else P.Reserved(old(Abs()), r.value - base, pgCnt)
    {
      hide B.FirstFit, B.RunAt, P.Range;
      var start := btmp.Scan(0, pgCnt);
      ghost var bits := btmp.Bits();
      FirstFitFits(bits, btmp.bitNum, pgCnt);
      if start == -1 {
        return None;
      }
      RangeGrows(start, 0);
      var cnt := 0;
      while cnt < pgCnt
        invariant cnt <= pgCnt
        invariant btmp.Bits() == bits + P.Range(start, cnt)
      {
        btmp.Set(start + cnt);
        RangeGrows(start, cnt);
        cnt := cnt + 1;
      }
      return Some(base + start);
    }
  }

  /** The page that pte_vaddr_get(v) lies in: the whole table of v, seen through the window. */
  function TableVaddr(v: nat): nat {
    0xffc0_0000 + Pdi(v) * PG_SIZE
  }

  lemma WindowWord(v: nat, k: nat)
    requires v < ADDRESSES && k < ENTRIES
    ensures var u := TableVaddr(v) + k * 4; Pdi(u) == SELF && Pti(u) == Pdi(v) && Off(u) == k * 4 && u < ADDRESSES
    ensures TableVaddr(v) + Pti(v) * 4 == PteVaddr(v)
  {
  }

  lemma WindowWalk(m: Mem, d: nat, v: nat, k: nat)
    requires v < ADDRESSES && k < ENTRIES && SelfMapped(m, d) && Present(Pde(m, d, v))
    ensures var u := TableVaddr(v) + k * 4;
            Walk(m, d, u).Some? && WordAt(Walk(m, d, u).value) == Slot(FrameOf(Pde(m, d, v)), k)
  {
    WindowWord(v, k);
    var f := FrameOf(Pde(m, d, v));
    assert (f * PG_SIZE + k * 4) / PG_SIZE == f && (f * PG_SIZE + k * 4) % PG_SIZE / 4 == k;
  }

  function Zeros(t: nat, k: nat): (m: Mem)
    ensures forall s: Slot :: s in m <==> s.frame == t && s.idx < k
    ensures forall s | s in m :: m[s] == 0
  {
    map i: nat | i < k :: Slot(t, i) := 0
  }

  lemma ZerosClear(m: Mem, t: nat)
    ensures m + Zeros(t, ENTRIES) == Cleared(m, t)
  {
  }

  lemma ZerosGrow(m: Mem, t: nat, k: nat)
    ensures (m + Zeros(t, k))[Slot(t, k) := 0] == m + Zeros(t, k + 1)
  {
  }

  lemma ZerosElsewhere(m: Mem, t: nat, k: nat, d: nat, v: nat)
    requires t != d
    ensures Pde(m + Zeros(t, k), d, v) == Pde(m, d, v) && (SelfMapped(m, d) ==> SelfMapped(m + Zeros(t, k), d))
  {
  }

  /** The processor's view: physical memory, reached by linear address under the directory in cr3. */
  class Mmu {
    var mem: Mem
    var cr3: nat

    constructor (mem: Mem, cr3: nat)
      ensures this.mem == mem && this.cr3 == cr3
    {
      this.mem, this.cr3 := mem, cr3;
    }

    /** None is a page fault. */
    method Load(v: nat) returns (x: Option<nat>)
      ensures x == match Walk(mem, cr3, v) { case None => None case Some(pa) => Some(Rd(mem, WordAt(pa))) }
    {
      match Walk(mem, cr3, v)
      case None => x := None;
      case Some(pa) => x := Some(Rd(mem, WordAt(pa)));
    }

    method Store(v: nat, x: nat)
      requires Walk(mem, cr3, v).Some?
      modifies this`mem
      ensures mem == old(mem)[WordAt(Walk(old(mem), cr3, v).value) := x]
    {
      mem := mem[WordAt(Walk(mem, cr3, v).value) := x];
    }

    method AddrV2P(v: nat) returns (r: Option<nat>)
      ensures r == Paging.AddrV2P(mem, cr3, v)
    {
      var pte := Load(PteVaddr(v));
      r := if pte.None? then None else Some(FrameOf(pte.value) * PG_SIZE + Off(v));
    }

    method LoadByte(v: nat) returns (b: nat)
      requires Walk(mem, cr3, v).Some?
      ensures var pa := Walk(mem, cr3, v).value; b == W.GetByte(Rd(mem, WordAt(pa)), pa % 4)
    {
      var pa := Walk(mem, cr3, v).value;
      b := W.GetByte(Rd(mem, WordAt(pa)), pa % 4);
    }

    method StoreByte(v: nat, b: nat)
      requires Walk(mem, cr3, v).Some? && b < 256
      modifies this`mem
      ensures var pa := Walk(old(mem), cr3, v).value;
              mem == old(mem)[WordAt(pa) := W.PutByte(Rd(old(mem), WordAt(pa)), pa % 4, b)]
    {
      var pa := Walk(mem, cr3, v).value;
      mem := mem[WordAt(pa) := W.PutByte(Rd(mem, WordAt(pa)), pa % 4, b)];
    }

    /** Four turns of memset's loop: the bytes of one word, which is no part of its own translation. */
    method SetFour(u: nat, ghost s: Slot)
      requires ReachesWord(mem, cr3, u, s)
      modifies this`mem
      ensures mem == old(mem)[s := 0]
    {
      hide Walk, W.PutByte, W.Mixed, ReachesWord;
      ghost var m, w := mem, Rd(mem, s);
      MixedEnds(w, 0);
      assert mem == m || mem == m[s := w];
      for j := 0 to 4
        invariant mem == (if j == 0 then m else m[s := W.Mixed(w, 0, j)])
      {
        ByteReached(m, cr3, u, s, if j == 0 then Rd(m, s) else W.Mixed(w, 0, j), j);
        ByteReached(m, cr3, u, s, W.Mixed(w, 0, j), j);
        W.PutMixes(w, 0, j);
        StoreByte(u + j, 0);
      }
    }

    /** Four turns of memcpy's loop: one word to another. */
    method CopyFour(u: nat, ghost s: Slot, from: nat, ghost r: Slot)
      requires ReachesWord(mem, cr3, u, s) && ReadsWord(mem, cr3, from, r) && r != s
      requires s != Slot(cr3, Pdi(from)) && s != Slot(FrameOf(Pde(mem, cr3, from)), Pti(from))
      modifies this`mem
      ensures mem == old(mem)[s := Rd(old(mem), r) % W.WORDS]
    {
      hide Walk, W.PutByte, W.Mixed, W.GetByte, ReachesWord, ReadsWord, Pdi, Pti, Pde;
      ghost var m, w, x := mem, Rd(mem, s), Rd(mem, r);
      MixedEnds(w, x);
      for j := 0 to 4
        invariant mem == (if j == 0 then m else m[s := W.Mixed(w, x, j)])
      {
        ByteReached(m, cr3, u, s, W.Mixed(w, x, j), j);
        ByteReadThrough(m, cr3, from, r, s, W.Mixed(w, x, j), j);
        W.PutMixes(w, x, j);
        var b := LoadByte(from + j);
        StoreByte(u + j, b);
      }
    }

    /** memset of the page table at the window address, byte by byte. */
    method ClearTable(v: nat)
      requires v < ADDRESSES && SelfMapped(mem, cr3) && Present(Pde(mem, cr3, v)) && FrameOf(Pde(mem, cr3, v)) != cr3
      modifies this`mem
      ensures mem == Cleared(old(mem), FrameOf(Pde(old(mem), cr3, v)))
    {
      hide Zeros, Walk, Pdi, Pde, SelfMapped, Cleared, ReachesWord;
      ghost var m := mem;
      ghost var t := FrameOf(Pde(mem, cr3, v));
      var k := 0;
      assert mem == m + Zeros(t, 0);
      while k < ENTRIES
        invariant k <= ENTRIES && mem == m + Zeros(t, k)
      {
        ZerosElsewhere(m, t, k, cr3, v);
        WindowReached(mem, cr3, v, k);
        SetFour(TableVaddr(v) + k * 4, Slot(t, k));
        ZerosGrow(m, t, k);
        k := k + 1;
      }
      ZerosClear(m, t);
    }

    /** memcpy of the kernel half, byte by byte, from the active directory's window to page n. */
    method CopyHalf(n: nat, ghost f: nat)
      requires Writable(mem, cr3, n, f) && forall i | 768 <= i < SELF :: Rd(mem, Slot(cr3, i)) < W.WORDS
      modifies this`mem
      ensures var m := old(mem);
              mem == (m + CopiedUpTo(m, cr3, f, SELF))[Slot(f, SELF) := Rd(m, Slot(cr3, SELF)) % W.WORDS]
    {
      hide Walk, Pdi, Pti, Pde, Present, FrameOf, SelfMapped, CopiedUpTo, Writable, WordAt, ReachesWord, ReadsWord;
      ghost var m := mem;
      var i := 768;
      CopyStart(m, cr3, f);
      while i < SELF
        invariant 768 <= i <= SELF && mem == m + CopiedUpTo(m, cr3, f, i)
      {
        CopyReached(m, cr3, n, f, i);
        CopyFour(n * PG_SIZE + i * 4, Slot(f, i), 0xffff_f000 + i * 4, Slot(cr3, i));
        CopyStep(m, cr3, f, i);
        i := i + 1;
      }
      CopyReached(m, cr3, n, f, i);
      CopyFour(n * PG_SIZE + i * 4, Slot(f, i), 0xffff_f000 + i * 4, Slot(cr3, i));
    }

    /** The body of page_dir_create after the allocation, on the page n. */
    method FillDirectory(n: nat, ghost f: nat)
      requires Writable(mem, cr3, n, f) && Paging.AddrV2P(mem, cr3, n * PG_SIZE) == Some(f * PG_SIZE)
      requires forall i | 768 <= i < SELF :: Rd(mem, Slot(cr3, i)) < W.WORDS
      modifies this`mem
      ensures mem == R.CopiedHalf(old(mem), cr3, f)
    {
      hide Walk, CopiedUpTo, R.CopiedHalf, Writable, Paging.AddrV2P;
      ghost var m := mem;
      var phyAddr := AddrV2P(n * PG_SIZE);
      CopyHalf(n, f);
      StaysWritable(m, cr3, n, f, SELF);
      WordWritable(m + CopiedUpTo(m, cr3, f, SELF), cr3, n, f, SELF, Rd(m, Slot(cr3, SELF)) % W.WORDS);
      WritableWord(mem, cr3, n, f, SELF);
      CopyDone(m, cr3, f, Rd(m, Slot(cr3, SELF)) % W.WORDS);
      Store(n * PG_SIZE + SELF * 4, Entry(phyAddr.value / PG_SIZE));
    }
  }

  // ----- a word by its bytes -----

  /** The aligned address u is translated to the word s, and s takes no part in that. */
  ghost predicate ReachesWord(m: Mem, d: nat, u: nat, s: Slot) {
    ReadsWord(m, d, u, s) && s != Slot(d, Pdi(u)) && s != Slot(FrameOf(Pde(m, d, u)), Pti(u))
  }

  ghost predicate ReadsWord(m: Mem, d: nat, u: nat, s: Slot) {
    u % 4 == 0 && Walk(m, d, u).Some? && WordAt(Walk(m, d, u).value) == s
  }

  lemma SamePage(u: nat, j: nat)
    requires u % 4 == 0 && j < 4
    ensures Pdi(u + j) == Pdi(u) && Pti(u + j) == Pti(u) && Off(u + j) == Off(u) + j && Off(u) % 4 == 0
  {
    var n, off := u / PG_SIZE, u % PG_SIZE;
    assert off % 4 == 0 && off + j < PG_SIZE;
    W.DivMod(u + j, PG_SIZE, n, off + j);
    T.PageOf(u);
    T.PageOf(u + j);
    hide Pdi, Pti;
  }

  lemma ByteInWord(pa: nat, f: nat, off: nat, j: nat)
    requires pa == f * PG_SIZE + off && off + j < PG_SIZE && off % 4 == 0 && j < 4
    ensures WordAt(pa + j) == WordAt(pa) && (pa + j) % 4 == j
  {
    W.DivMod(pa, PG_SIZE, f, off);
    W.DivMod(pa + j, PG_SIZE, f, off + j);
    W.DivMod(off + j, 4, off / 4, j);
    W.DivMod(pa + j, 4, f * ENTRIES + off / 4, j);
    W.DivMod(pa, 4, f * ENTRIES + off / 4, 0);
  }

  /** Byte j of the word is reached by address u + j, whatever value the word has. */
  lemma ByteReached(m: Mem, d: nat, u: nat, s: Slot, w: nat, j: nat)
    requires ReachesWord(m, d, u, s) && j < 4
    ensures var m' := m[s := w];
            && Walk(m', d, u + j).Some? && WordAt(Walk(m', d, u + j).value) == s && Walk(m', d, u + j).value % 4 == j
            && Walk(m, d, u + j).Some? && WordAt(Walk(m, d, u + j).value) == s && Walk(m, d, u + j).value % 4 == j
  {
    SamePage(u, j);
    hide Pdi, Pti;
    var pa := Walk(m, d, u).value;
    ByteInWord(pa, FrameOf(Pte(m, d, u)), Off(u), j);
  }

  lemma ByteReadThrough(m: Mem, d: nat, u: nat, r: Slot, s: Slot, w: nat, j: nat)
    requires ReadsWord(m, d, u, r) && j < 4 && r != s
    requires s != Slot(d, Pdi(u)) && s != Slot(FrameOf(Pde(m, d, u)), Pti(u))
    ensures var m' := m[s := w];
            && Walk(m', d, u + j).Some? && WordAt(Walk(m', d, u + j).value) == r && Walk(m', d, u + j).value % 4 == j
            && Walk(m, d, u + j).Some? && WordAt(Walk(m, d, u + j).value) == r && Walk(m, d, u + j).value % 4 == j
            && Rd(m', r) == Rd(m, r)
  {
    SamePage(u, j);
    hide Pdi, Pti;
    var pa := Walk(m, d, u).value;
    ByteInWord(pa, FrameOf(Pte(m, d, u)), Off(u), j);
  }

  lemma MixedEnds(w: nat, x: nat)
    ensures W.Mixed(w, x, 0) == w && W.Mixed(w, x, 4) == x % W.WORDS
    ensures forall j: nat | j < 4 :: W.GetByte(0, j) == 0
  {
  }

  lemma WindowReached(m: Mem, d: nat, v: nat, k: nat)
    requires v < ADDRESSES && k < ENTRIES && SelfMapped(m, d) && Present(Pde(m, d, v)) && FrameOf(Pde(m, d, v)) != d
    ensures ReachesWord(m, d, TableVaddr(v) + k * 4, Slot(FrameOf(Pde(m, d, v)), k))
  {
    WindowWalk(m, d, v, k);
    WindowWord(v, k);
    hide Pdi, Pti, Walk, WordAt;
  }

  /** In the middle of the copy, the two words of the next step. */
  lemma CopyReached(m: Mem, d: nat, n: nat, f: nat, k: nat)
    requires Writable(m, d, n, f) && 768 <= k < ENTRIES
    ensures var m1 := m + CopiedUpTo(m, d, f, k);
            var from := 0xffff_f000 + k * 4;
            && ReachesWord(m1, d, n * PG_SIZE + k * 4, Slot(f, k)) && ReadsWord(m1, d, from, Slot(d, k))
            && Slot(f, k) != Slot(d, Pdi(from)) && Slot(f, k) != Slot(FrameOf(Pde(m1, d, from)), Pti(from))
            && Rd(m1, Slot(d, k)) == Rd(m, Slot(d, k)) && Slot(d, k) != Slot(f, k)
  {
    hide CopiedUpTo;
    var m1 := m + CopiedUpTo(m, d, f, k);
    StaysWritable(m, d, n, f, k);
    WritableWord(m1, d, n, f, k);
    WritableFields(m1, d, n, f, k);
    WritableSelf(m1, d, n, f);
    DirectoryWord(m1, d, k);
    DirectoryFields(k);
    hide Pdi, Pti, Walk, WordAt, Writable;
  }

  lemma WritableFields(m: Mem, d: nat, n: nat, f: nat, k: nat)
    requires Writable(m, d, n, f) && k < ENTRIES
    ensures var u := n * PG_SIZE + k * 4;
            u % 4 == 0 && Slot(f, k) != Slot(d, Pdi(u)) && Slot(f, k) != Slot(FrameOf(Pde(m, d, u)), Pti(u))
  {
    hide Pdi, Pti, Walk, Present;
    var u := n * PG_SIZE + k * 4;
    WordInPage(n, k);
    T.PageOf(u);
    T.PageOf(n * PG_SIZE);
  }

  lemma WordInPage(n: nat, k: nat)
    requires k < ENTRIES
    ensures (n * PG_SIZE + k * 4) / PG_SIZE == n && n * PG_SIZE / PG_SIZE == n && (n * PG_SIZE + k * 4) % 4 == 0
  {
    W.DivMod(n * PG_SIZE + k * 4, PG_SIZE, n, k * 4);
    W.DivMod(n * PG_SIZE + k * 4, 4, n * ENTRIES + k, 0);
  }

  lemma DirectoryFields(k: nat)
    requires k < ENTRIES
    ensures var u := 0xffff_f000 + k * 4; u % 4 == 0 && Pdi(u) == SELF && Pti(u) == SELF
  {
  }

  lemma WordWritable(m: Mem, d: nat, n: nat, f: nat, k: nat, x: nat)
    requires Writable(m, d, n, f)
    ensures Writable(m[Slot(f, k) := x], d, n, f)
  {
  }

  lemma WritableSelf(m: Mem, d: nat, n: nat, f: nat)
    requires Writable(m, d, n, f)
    ensures SelfMapped(m, d) && d != f
  {
  }

  lemma BootSizes(allMem: nat)
    requires R.L.USED_MEM <= allMem < R.L.LARGEST
    ensures var p := R.L.MemPoolInit(allMem);
            && p.kernel.pages < B.INT32_LIMIT && p.user.pages < B.INT32_LIMIT && p.virt.pages < B.INT32_LIMIT
            && B.ByteLen(0) == 0
  {
    R.L.PoolsTile(allMem);
  }

  // ----- page_dir_create's copy -----

  function CopiedUpTo(m: Mem, d: nat, f: nat, k: nat): (r: Mem)
    ensures forall s: Slot :: s in r <==> s.frame == f && 768 <= s.idx < k
    ensures forall s | s in r :: r[s] == Rd(m, Slot(d, s.idx))
  {
    map i: nat | 768 <= i < k :: Slot(f, i) := Rd(m, Slot(d, i))
  }

  lemma CopyStep(m: Mem, d: nat, f: nat, k: nat)
    requires k >= 768
    ensures (m + CopiedUpTo(m, d, f, k))[Slot(f, k) := Rd(m, Slot(d, k))] == m + CopiedUpTo(m, d, f, k + 1)
  {
    hide CopiedUpTo;
    assert CopiedUpTo(m, d, f, k)[Slot(f, k) := Rd(m, Slot(d, k))] == CopiedUpTo(m, d, f, k + 1);
  }

  lemma CopyStart(m: Mem, d: nat, f: nat)
    ensures m + CopiedUpTo(m, d, f, 768) == m
  {
  }

  /** What was copied to the last entry does not matter: it is set afterwards. */
  lemma CopyDone(m: Mem, d: nat, f: nat, x: nat)
    ensures (m + CopiedUpTo(m, d, f, SELF))[Slot(f, SELF) := x][Slot(f, SELF) := Entry(f)] == R.CopiedHalf(m, d, f)
  {
    hide Entry;
  }

  /** A page that is mapped under d, by a table and a directory other than itself: its words, while it is written. */
  ghost predicate Writable(m: Mem, d: nat, n: nat, f: nat) {
    SelfMapped(m, d) && d != f && Present(Pde(m, d, n * PG_SIZE)) && FrameOf(Pde(m, d, n * PG_SIZE)) != f
      && Walk(m, d, n * PG_SIZE) == Some(f * PG_SIZE)
  }

  lemma StaysWritable(m: Mem, d: nat, n: nat, f: nat, k: nat)
    requires Writable(m, d, n, f)
    ensures Writable(m + CopiedUpTo(m, d, f, k), d, n, f)
  {
  }

  lemma WritableWord(m: Mem, d: nat, n: nat, f: nat, k: nat)
    requires Writable(m, d, n, f) && k < ENTRIES
    ensures var v := n * PG_SIZE + k * 4; Walk(m, d, v).Some? && WordAt(Walk(m, d, v).value) == Slot(f, k)
  {
    var v := n * PG_SIZE + k * 4;
    assert v / PG_SIZE == n && Off(v) == k * 4 && Off(n * PG_SIZE) == 0 && n * PG_SIZE / PG_SIZE == n;
    T.PageOf(v);
    T.PageOf(n * PG_SIZE);
    assert (f * PG_SIZE + k * 4) / PG_SIZE == f && (f * PG_SIZE + k * 4) % PG_SIZE / 4 == k;
    hide Pdi, Pti, Off;
  }

  lemma DirectoryWord(m: Mem, d: nat, k: nat)
    requires SelfMapped(m, d) && k < ENTRIES
    ensures var v := 0xffff_f000 + k * 4; Walk(m, d, v).Some? && WordAt(Walk(m, d, v).value) == Slot(d, k)
  {
    assert Pdi(k * 0x40_0000) == k;
    RecursivePde(m, d, k * 0x40_0000);
  }

  /** How v2p_mapping ends: the entry is set; its assertion failed; or the entry is set in a table that has no frame. */
  datatype Edit = Set | Asserted | NoTable

  /** How malloc_page and target_vaddr_malloc end; Stray is the store of a bit outside the bitmap. */
  datatype Ret = Address(page: nat) | Null | Panic | Broken | Stray

  class Memory {
    const mmu: Mmu
    const kphy: PagePool
    const uphy: PagePool
    const kvir: PagePool
    /** user_vaddr_pool of the running thread. */
    var uvir: PagePool
    ghost var own: map<nat, A.Owner>
    ghost var dirs: set<nat>
    /** The pools of all processes; the running one's is in uvir. */
    ghost var pools: map<nat, A.Pool>

    /** mem_init after the loader; the running thread has no directory yet. */
    constructor (allMem: nat)
      requires R.L.USED_MEM <= allMem < R.L.LARGEST
      ensures Valid() && mmu.cr3 == A.KDIR && Abs() == R.BootWorld(allMem)
    {
      hide A.WInv, R.BootMem, B.ByteLen;
      BootSizes(allMem);
      var p := R.L.MemPoolInit(allMem);
      var kbits := new bv8[B.ByteLen(p.kernel.pages)](_ => 0);
      var ubits := new bv8[B.ByteLen(p.user.pages)](_ => 0);
      var vbits := new bv8[B.ByteLen(p.virt.pages)](_ => 0);
      var none := new bv8[0];
      mmu := new Mmu(R.BootMem(), A.KDIR);
      kphy := new PagePool(kbits, p.kernel.base / PG_SIZE, p.kernel.pages);
      uphy := new PagePool(ubits, p.user.base / PG_SIZE, p.user.pages);
      kvir := new PagePool(vbits, p.virt.base / PG_SIZE, p.virt.pages);
      uvir := new PagePool(none, 0, 0);
      own, dirs, pools := map[], {}, map[];
      new;
      R.BootKeeps(allMem);
    }

    ghost predicate Shape()
      reads this
    {
      && kphy.Valid() && uphy.Valid() && kvir.Valid() && uvir.Valid()
      && kphy.btmp.bytes != uphy.btmp.bytes && kphy.btmp.bytes != kvir.btmp.bytes && kphy.btmp.bytes != uvir.btmp.bytes
      && uphy.btmp.bytes != kvir.btmp.bytes && uphy.btmp.bytes != uvir.btmp.bytes && kvir.btmp.bytes != uvir.btmp.bytes
    }

    ghost function Arrays(): set<object>
      reads this
    {
      {kphy.btmp.bytes, uphy.btmp.bytes, kvir.btmp.bytes, uvir.btmp.bytes}
    }

    ghost function Abs(): A.World
      requires Shape()
      reads this, mmu, Arrays()
    {
      A.World(mmu.mem, dirs, kphy.Abs(), uphy.Abs(), kvir.Abs(),
        if mmu.cr3 in dirs then pools[mmu.cr3 := uvir.Abs()] else pools, own)
    }

    ghost predicate Valid()
      reads this, mmu, Arrays()
    {
      && Shape() && P.Active(Abs(), mmu.cr3) && A.WInv(Abs())
      && (mmu.cr3 !in dirs ==> uvir.Abs() == A.Pool(0, 0, {}))
    }

    lemma Virtual(user: bool)
      requires Valid()
      ensures P.Virtual(Abs(), mmu.cr3, user) == if user then uvir.Abs() else kvir.Abs()
    {
    }

    /** v2p_mapping of page n to frame f. */
    method V2PMapping(n: nat, f: nat) returns (r: Edit)
      requires Shape() && SelfMapped(mmu.mem, mmu.cr3) && n * PG_SIZE < ADDRESSES && 1 <= Pdi(n * PG_SIZE) <= 1022
      requires mmu.cr3 != 0 && (!Present(Pde(mmu.mem, mmu.cr3, n * PG_SIZE)) ==> A.Grab(kphy.Abs()) != Some(mmu.cr3))
      requires Present(Pde(mmu.mem, mmu.cr3, n * PG_SIZE)) ==> FrameOf(Pde(mmu.mem, mmu.cr3, n * PG_SIZE)) != mmu.cr3
      modifies mmu`mem, kphy.btmp.bytes
      ensures var v, m, d, t := n * PG_SIZE, old(mmu.mem), mmu.cr3, A.Grab(old(kphy.Abs()));
              if Present(Pde(m, d, v)) then
                kphy.Abs() == old(kphy.Abs()) &&
                if Present(Pte(m, d, v)) then r == Asserted && mmu.mem == m
                  else r == Set && mmu.mem == SetPte(m, d, v, f)
              else match t
                case None => r == NoTable && mmu.mem == NewTable(m, d, v, 0, f) && kphy.Abs() == old(kphy.Abs())
                case Some(t) =>
                  && r == Set && mmu.mem == NewTable(m, d, v, t, f)
                  && kphy.Abs() == A.Take(old(kphy.Abs()), t)
    {
      hide Walk, Pdi, Pti, Cleared, A.Take, A.Grab;
      var v := n * PG_SIZE;
      ghost var m, d := mmu.mem, mmu.cr3;
      RecursivePde(m, d, v);
      var pde := mmu.Load(PdeVaddr(v));
      if Present(pde.value) {
        RecursivePte(m, d, v);
        var pte := mmu.Load(PteVaddr(v));
        if Present(pte.value) {
          return Asserted;
        }
        mmu.Store(PteVaddr(v), Entry(f));
        return Set;
      }
      var frame := kphy.PaddrGet();
      var t := if frame.None? then 0 else frame.value;
      mmu.Store(PdeVaddr(v), Entry(t));
      assert mmu.mem == m[Slot(d, Pdi(v)) := Entry(t)];
      assert SelfMapped(mmu.mem, d);
      mmu.ClearTable(v);
      ClearedElsewhere(m[Slot(d, Pdi(v)) := Entry(t)], t, d, v);
      RecursivePte(mmu.mem, d, v);
      ghost var pte := Rd(mmu.mem, WordAt(Walk(mmu.mem, d, PteVaddr(v)).value));
      PtiBound(v);
      assert !Present(pte);
      mmu.Store(PteVaddr(v), Entry(f));
      return if frame.None? then NoTable else Set;
    }

    /** What the processor's active directory says suffices for v2p_mapping to work through the window. */
    lemma MapReady(user: bool, n: nat)
      requires Valid() && (user ==> mmu.cr3 in dirs) && A.Holds(P.Virtual(Abs(), mmu.cr3, user), n)
      ensures SelfMapped(mmu.mem, mmu.cr3) && mmu.cr3 != 0 && n * PG_SIZE < ADDRESSES && 1 <= Pdi(n * PG_SIZE) <= 1022
      ensures var pde := Pde(mmu.mem, mmu.cr3, n * PG_SIZE);
              && (Present(pde) ==> FrameOf(pde) != mmu.cr3)
              && (!Present(pde) ==> user && A.Grab(kphy.Abs()) != Some(mmu.cr3))
    {
      ActiveReady(Abs(), mmu.cr3, user, n);
    }

    /** The body of malloc_page's loop. */
    method MapPage(user: bool, n: nat) returns (r: Ret)
      requires Valid() && (user ==> mmu.cr3 in dirs) && A.Holds(P.Virtual(Abs(), mmu.cr3, user), n)
      modifies mmu`mem, kphy.btmp.bytes, uphy.btmp.bytes, `own
      ensures Shape() && kvir.Abs() == old(kvir.Abs()) && uvir.Abs() == old(uvir.Abs())
      ensures match A.MapPage(old(Abs()), mmu.cr3, user, n)
              case Mapped(w) => r == Address(n) && Abs() == w
              case NoFrame => r == Null && Abs() == old(Abs())
              case Repeat => r == Panic
              case NullTable(m) => r == Broken && mmu.mem == m
    {
      hide A.WInv, Walk, Pdi, Pti, A.Grab, SetPte, NewTable;
      MapReady(user, n);
      ghost var w := Abs();
      var pool := if user then uphy else kphy;
      var frame := pool.PaddrGet();
      if frame.None? {
        assert Abs() == w;
        return Null;
      }
      var e := V2PMapping(n, frame.value);
      match e
      case Asserted => r := Panic;
      case NoTable => r := Broken;
      case Set =>
        r := Address(n);
        own := A.MapPage(w, mmu.cr3, user, n).w.own;
    }

    /** vaddr_get, with the pool of the running thread for user pages. */
    method VaddrGet(user: bool, pgCnt: nat) returns (r: Option<nat>)
      requires Valid() && pgCnt > 0
      modifies kvir.btmp.bytes, uvir.btmp.bytes
      ensures var w, p := old(Abs()), P.Virtual(old(Abs()), mmu.cr3, user);
              && r == P.VaddrGet(p, pgCnt)
              && (r.Some? ==> r.value >= p.base && (user ==> mmu.cr3 in dirs))
              && Shape() && Abs() == if r.None? then w
                 else P.WithVirtual(w, mmu.cr3, user, P.Reserved(p, r.value - p.base, pgCnt))
    {
      hide A.WInv, P.VaddrGet, P.Reserved;
      Virtual(user);
      ghost var w := Abs();
      if user {
        r := uvir.VaddrGet(pgCnt);
        if mmu.cr3 !in dirs {
          P.VaddrGetIsFirstFit(A.Pool(0, 0, {}), pgCnt);
        } else {
          assert pools[mmu.cr3 := w.uvirt[mmu.cr3]][mmu.cr3 := uvir.Abs()] == pools[mmu.cr3 := uvir.Abs()];
        }
        PoolsMatch(w);
      } else {
        r := kvir.VaddrGet(pgCnt);
      }
    }

    /** malloc_page's loop. */
    method MapPages(user: bool, start: nat, pgCnt: nat) returns (r: Ret)
      requires Valid() && P.Unmapped(Abs(), mmu.cr3, user, start, pgCnt) && (user ==> mmu.cr3 in dirs)
      modifies mmu`mem, kphy.btmp.bytes, uphy.btmp.bytes, `own
      ensures Shape()
      ensures match P.MapPages(old(Abs()), mmu.cr3, user, start, pgCnt)
              case Done(w, _) => r == Address(start) && Valid() && Abs() == w
              case Failed(w) => r == Null && Valid() && Abs() == w
              case Panicked => r == Panic
              case Corrupted(w, m) => r == Broken && mmu.mem == m
    {
      hide A.WInv, A.MapPage, P.Virtual, P.Unmapped;
      ghost var w1, d := Abs(), mmu.cr3;
      var n, cnt := start, pgCnt;
      while cnt > 0
        invariant Valid() && mmu.cr3 == d && P.Unmapped(Abs(), d, user, n, cnt) && (user ==> d in dirs)
        invariant P.MapPages(w1, d, user, start, pgCnt) == P.MapPages(Abs(), d, user, n, cnt)
      {
        cnt := cnt - 1;
        ghost var w := Abs();
        MapStep(w, d, user, n, cnt + 1);
        var page := MapPage(user, n);
        match page
        case Address(_) =>
          n := n + 1;
        case Null => return Null;
        case Panic =>
          assert false;
        case Broken => return Broken;
      }
      return Address(start);
    }

    /** malloc_page */
    method MallocPage(user: bool, pgCnt: nat) returns (r: Ret)
      requires Valid()
      modifies mmu`mem, kphy.btmp.bytes, uphy.btmp.bytes, kvir.btmp.bytes, uvir.btmp.bytes, `own
      ensures Shape()
      ensures match P.MallocPage(old(Abs()), mmu.cr3, user, pgCnt)
              case Done(w, n) => r == Address(n) && Valid() && Abs() == w
              case Failed(w) => r == Null && Valid() && Abs() == w
              case Panicked => r == Panic
              case Corrupted(w, m) => r == Broken && mmu.mem == m
    {
      hide A.WInv, P.VaddrGet, P.Reserved, A.MapPage, P.Virtual, P.Unmapped;
      if !(0 < pgCnt < A.MALLOC_LIMIT) {
        return Panic;
      }
      ghost var w0, d := Abs(), mmu.cr3;
      var start := VaddrGet(user, pgCnt);
      if start.None? {
        return Null;
      }
      ghost var w1 := Abs();
      Reserving(w0, w1, d, user, start.value, pgCnt);
      r := MapPages(user, start.value, pgCnt);
    }

    /** The first half of target_vaddr_malloc: which pool, and its bit; a thread has a page directory iff cr3 is not the
        kernel's. None is the panic; false is a bit that the bitmap does not have, whose store is not made here. */
    method TargetReserve(user: bool, n: nat) returns (ok: Option<bool>)
      requires Valid()
      modifies kvir.btmp.bytes, uvir.btmp.bytes
      ensures Shape()
      ensures var w, p := old(Abs()), P.Virtual(old(Abs()), mmu.cr3, user);
              && (ok.None? <==> !R.RightKind(mmu.cr3, user))
              && (ok.Some? ==> (ok.value <==> A.Covers(p, n)))
              && (ok == Some(true) ==> Abs() == P.WithVirtual(w, mmu.cr3, user, P.Reserved(p, n - p.base, 1)))
    {
      hide A.WInv, P.Reserved;
      Virtual(user);
      ghost var w, d, p := Abs(), mmu.cr3, P.Virtual(Abs(), mmu.cr3, user);
      if R.RightKind(d, user) && A.Covers(p, n) {
        ReservedOne(p, n - p.base);
      }
      if mmu.cr3 != A.KDIR && user {
        if !uvir.InRange(n) {
          return Some(false);
        }
        uvir.btmp.Set(n - uvir.base);
        assert pools[d := w.uvirt[d]][d := uvir.Abs()] == pools[d := uvir.Abs()];
        PoolsMatch(w);
        return Some(true);
      } else if mmu.cr3 == A.KDIR && !user {
        if !kvir.InRange(n) {
          return Some(false);
        }
        kvir.btmp.Set(n - kvir.base);
        return Some(true);
      }
      return None;
    }

    /** target_vaddr_malloc */
    method TargetVaddrMalloc(user: bool, n: nat) returns (r: Ret)
      requires Valid()
      modifies mmu`mem, kphy.btmp.bytes, uphy.btmp.bytes, kvir.btmp.bytes, uvir.btmp.bytes, `own
      ensures Shape()
      ensures match R.TargetVaddrMalloc(old(Abs()), mmu.cr3, user, n)
              case None => r == Stray
              case Some(Done(w, m)) => r == Address(m) && Valid() && Abs() == w
              case Some(Failed(w)) => r == Null && Valid() && Abs() == w
              case Some(Panicked) => r == Panic
              case Some(Corrupted(w, m)) => r == Broken && mmu.mem == m
    {
      hide A.WInv, A.MapPage, P.Reserved, P.Virtual, P.WithVirtual;
      ghost var w, d := Abs(), mmu.cr3;
      var ok := TargetReserve(user, n);
      if ok.None? {
        return Panic;
      }
      if !ok.value {
        return Stray;
      }
      TargetStep(w, Abs(), d, user, n);
      r := MapPage(user, n);
    }

    /** Page n becomes a directory, and its process gets a pool of user pages. */
    method NewDirectory(n: nat, ghost f: nat)
      requires Shape() && (mmu.cr3 == A.KDIR || mmu.cr3 in dirs) && f != mmu.cr3
      requires Writable(mmu.mem, mmu.cr3, n, f) && AddrV2P(mmu.mem, mmu.cr3, n * PG_SIZE) == Some(f * PG_SIZE)
      requires forall i | 768 <= i < SELF :: Rd(mmu.mem, Slot(mmu.cr3, i)) < W.WORDS
      modifies mmu`mem, `dirs, `pools
      ensures Shape() && Abs() == R.NewDirectory(old(Abs()), mmu.cr3, f)
    {
      hide R.CopiedHalf, Walk, Writable, AddrV2P, Pdi, Pde, A.WInv;
      ghost var w, d := Abs(), mmu.cr3;
      mmu.FillDirectory(n, f);
      dirs := dirs + {f};
      pools := pools[f := A.Pool(A.USER_PAGE, A.USER_PAGES, {})];
      assert Abs().uvirt == w.uvirt[f := A.Pool(A.USER_PAGE, A.USER_PAGES, {})];
    }

    /** page_dir_create */
    method PageDirCreate() returns (r: Ret)
      requires Valid()
      modifies mmu`mem, kphy.btmp.bytes, uphy.btmp.bytes, kvir.btmp.bytes, uvir.btmp.bytes, `own, `dirs, `pools
      ensures match R.PageDirCreate(old(Abs()), mmu.cr3)
              case Done(w, n) => r == Address(n) && Valid() && Abs() == w
              case Failed(w) => r == Null && Valid() && Abs() == w
              case r => false
    {
      hide A.WInv, P.MallocPage, R.NewDirectory, Walk, Writable, R.PageDirCreate, AddrV2P;
      ghost var w, d := Abs(), mmu.cr3;
      R.PageDirCreateKeeps(w, d);
      CreateOrFail(w, d);
      r := MallocPage(false, 1);
      if r.Null? {
        return;
      }
      ghost var w1 := Abs();
      ghost var f := NewFrame(w, d, w1, r.page);
      KernelEntriesAreWords(w1, d);
      NewDirectory(r.page, f);
      StillActive(w1, d, f);
    }

    /** page_dir_activate, for the thread that runs next: `pgDir` is its pg_dir in pages, `pool` its user_vaddr_pool;
        `f` is the frame of its directory. Which pool is whose does not change the world. */
    method PageDirActivate(pgDir: Option<nat>, pool: PagePool, ghost f: nat)
      requires Valid() && pool.Valid()
      requires pool.btmp.bytes !in {kphy.btmp.bytes, uphy.btmp.bytes, kvir.btmp.bytes}
      requires match pgDir
               case None => pool.Abs() == A.Pool(0, 0, {})
               case Some(n) => f in dirs && f in own && own[f] == A.KernelPage(n) && Abs().uvirt[f] == pool.Abs()
      modifies mmu`cr3, `uvir, `pools
      ensures Valid() && Abs() == old(Abs()) && mmu.cr3 == (if pgDir.None? then A.KDIR else f)
    {
      hide A.WInv, AddrV2P;
      ghost var w := Abs();
      PoolsMatch(w);
      var dir := A.KDIR;
      if pgDir.Some? {
        DirectoryAddress(w, mmu.cr3, pgDir.value, f);
        var phyAddr := mmu.AddrV2P(pgDir.value * PG_SIZE);
        dir := phyAddr.value / PG_SIZE;
      }
      KernelIsNoProcess(w);
      pools := w.uvirt;
      uvir := pool;
      mmu.cr3 := dir;
      assert mmu.cr3 in dirs ==> w.uvirt[mmu.cr3 := uvir.Abs()] == w.uvirt;
      assert Abs() == w;
    }
  }

  lemma DirectoryAddress(w: A.World, d: nat, n: nat, f: nat)
    requires A.WInv(w) && P.Active(w, d) && f in w.own && w.own[f] == A.KernelPage(n)
    ensures AddrV2P(w.mem, d, n * PG_SIZE) == Some(f * PG_SIZE) && f * PG_SIZE / PG_SIZE == f
  {
    hide AddrV2P;
    KernelPageRange(w, f);
    R.AddrOfHeapPage(w, d, n, f);
  }

  lemma KernelPageRange(w: A.World, f: nat)
    requires A.WInv(w) && f in w.own && w.own[f].KernelPage?
    ensures A.KHEAP_PAGE <= w.own[f].n < 1023 * ENTRIES
  {
    hide A.Halves, A.Accounted, A.Zeroed, A.Booked;
    assert A.OwnerOk(w, f);
  }

  lemma KernelIsNoProcess(w: A.World)
    requires A.WInv(w)
    ensures A.KDIR !in w.dirs
  {
    T.OwnersAbove(w);
  }

  lemma KernelEntriesAreWords(w: A.World, d: nat)
    requires A.WInv(w) && P.Active(w, d)
    ensures forall i | 768 <= i < SELF :: Rd(w.mem, Slot(d, i)) < W.WORDS
  {
    hide A.Ledger, A.Accounted, A.Zeroed, A.Booked, A.Layout;
    forall i | 768 <= i < SELF ensures Rd(w.mem, Slot(d, i)) < W.WORDS {
      assert Rd(w.mem, Slot(d, i)) == Entry(A.KTable(i));
    }
  }

  lemma StillActive(w: A.World, d: nat, f: nat)
    requires P.Active(w, d)
    ensures P.Active(R.NewDirectory(w, d, f), d) && R.NewDirectory(w, d, f).dirs == w.dirs + {f}
  {
    hide R.CopiedHalf;
  }

  lemma CreateOrFail(w: A.World, d: nat)
    ensures P.MallocPage(w, d, false, 1).Failed? ==> R.PageDirCreate(w, d) == P.MallocPage(w, d, false, 1)
    ensures !P.MallocPage(w, d, false, 1).Done? && !P.MallocPage(w, d, false, 1).Failed?
            ==> R.PageDirCreate(w, d) == P.MallocPage(w, d, false, 1)
  {
    hide P.MallocPage;
  }

  /** The frame behind a freshly allocated kernel page. */
  lemma NewFrame(w: A.World, d: nat, w1: A.World, n: nat) returns (f: nat)
    requires A.WInv(w) && P.Active(w, d) && P.MallocPage(w, d, false, 1) == P.Done(w1, n)
    ensures AddrV2P(w1.mem, d, n * PG_SIZE) == Some(f * PG_SIZE) && Writable(w1.mem, d, n, f)
    ensures R.PageDirCreate(w, d) == P.Done(R.NewDirectory(w1, d, f), n) && f != d && f !in w1.dirs
  {
    hide A.WInv, P.MallocPage, AddrV2P, Pdi, Pti, Off, R.NewDirectory;
    R.OneKernelPage(w, d, w1, n);
    f :| R.Blank(w1, f) && f in w1.own && w1.own[f] == A.KernelPage(n) && f !in w.own;
    R.AddrOfHeapPage(w1, d, n, f);
    R.SelfMappedEverywhere(w1, d);
    T.OwnersAbove(w1);
    T.OwnersAbove(w);
    HeapTable(w1, d, n);
    HeapWalk(w1, d, n, f);
    assert f * PG_SIZE / PG_SIZE == f;
  }

  lemma HeapWalk(w: A.World, d: nat, n: nat, f: nat)
    requires A.WInv(w) && P.Active(w, d) && A.KHEAP_PAGE <= n < 1023 * ENTRIES && f in w.own
             && w.own[f] == A.KernelPage(n)
    ensures Walk(w.mem, d, n * PG_SIZE) == Some(f * PG_SIZE)
  {
    hide A.WInv, Walk;
    var v := n * PG_SIZE;
    assert v / PG_SIZE == n && Off(v) == 0;
    T.PageOf(v);
    T.WalkIsLedger(w, d, v);
  }

  lemma HeapTable(w: A.World, d: nat, n: nat)
    requires A.WInv(w) && P.Active(w, d) && A.KHEAP_PAGE <= n < 1023 * ENTRIES
    ensures var pde := Pde(w.mem, d, n * PG_SIZE); Present(pde) && FrameOf(pde) < 512
  {
    A.PageNumber(n);
    hide A.Ledger, A.Accounted, A.Zeroed, A.Booked, A.Layout, Pdi;
    assert Rd(w.mem, Slot(d, n / ENTRIES)) == Entry(A.KTable(n / ENTRIES));
  }

  lemma ReservedOne(p: A.Pool, i: nat)
    ensures P.Reserved(p, i, 1) == p.(used := p.used + {i})
  {
    RangeGrows(i, 0);
  }

  lemma TargetStep(w: A.World, w1: A.World, d: nat, user: bool, n: nat)
    requires A.WInv(w) && P.Active(w, d) && R.RightKind(d, user) && A.Covers(P.Virtual(w, d, user), n)
    requires var p := P.Virtual(w, d, user); w1 == P.WithVirtual(w, d, user, P.Reserved(p, n - p.base, 1))
    ensures A.WInv(w1) && P.Active(w1, d) && (user ==> d in w1.dirs) && A.Holds(P.Virtual(w1, d, user), n)
    ensures A.MapPage(w1, d, user, n).Mapped? ==> A.WInv(A.MapPage(w1, d, user, n).w)
    ensures A.MapPage(w1, d, user, n).Mapped? ==> A.MapPage(w1, d, user, n).w.dirs == w.dirs
  {
    hide A.WInv, A.MapPage;
    var p := P.Virtual(w, d, user);
    P.VirtualPool(w, d, user);
    P.ReserveKeeps(w, d, user, n - p.base, 1);
    P.VirtualPool(w1, d, user);
    ReservedOne(p, n - p.base);
    P.PageMaps(w1, d, user, n);
  }

  /** malloc_page's reservation in terms of the world. */
  lemma Reserving(w: A.World, w1: A.World, d: nat, user: bool, n: nat, cnt: nat)
    requires A.WInv(w) && P.Active(w, d) && 0 < cnt < A.MALLOC_LIMIT && (user ==> d in w.dirs)
    requires var p := P.Virtual(w, d, user);
             && P.VaddrGet(p, cnt) == Some(n) && n >= p.base
             && w1 == P.WithVirtual(w, d, user, P.Reserved(p, n - p.base, cnt))
    ensures A.WInv(w1) && P.Active(w1, d) && P.Unmapped(w1, d, user, n, cnt)
    ensures P.MallocPage(w, d, user, cnt) == P.StartingAt(n, P.MapPages(w1, d, user, n, cnt))
  {
    hide A.WInv, P.MapPages, A.Has, P.Reserved;
    var p := P.Virtual(w, d, user);
    P.VaddrGetIsFirstFit(p, cnt);
    P.ReserveKeeps(w, d, user, n - p.base, cnt);
    P.VirtualPool(w, d, user);
    P.VirtualPool(w1, d, user);
    forall m: nat | n <= m < n + cnt
      ensures A.Holds(P.Virtual(w1, d, user), m) && !A.Has(w1.own, A.PageOwner(user, d, m))
    {
      P.FreeMeansUnmapped(w, d, user, m);
    }
  }

  lemma MapStep(w: A.World, d: nat, user: bool, n: nat, cnt: nat)
    requires A.WInv(w) && P.Active(w, d) && (user ==> d in w.dirs) && cnt > 0 && P.Unmapped(w, d, user, n, cnt)
    ensures A.Holds(P.Virtual(w, d, user), n)
    ensures var r := A.MapPage(w, d, user, n);
            && !r.Repeat?
            && (r.Mapped? ==>
                  && A.WInv(r.w) && r.w.dirs == w.dirs && r.w.uvirt == w.uvirt
                  && P.Unmapped(r.w, d, user, n + 1, cnt - 1))
  {
    hide A.WInv, A.MapPage, A.Has, P.Virtual;
    assert A.Holds(P.Virtual(w, d, user), n) && !A.Has(w.own, A.PageOwner(user, d, n));
    P.PageMaps(w, d, user, n);
    if A.MapPage(w, d, user, n).Mapped? {
      P.OneMapped(w, A.MapPage(w, d, user, n).w, d, user, n, cnt);
    }
  }

  lemma PoolsMatch(w: A.World)
    requires A.WInv(w)
    ensures w.uvirt.Keys == w.dirs
  {
  }

  lemma ActiveReady(w: A.World, d: nat, user: bool, n: nat)
    requires A.WInv(w) && P.Active(w, d) && (user ==> d in w.dirs) && A.Holds(P.Virtual(w, d, user), n)
    ensures SelfMapped(w.mem, d) && d != 0 && n * PG_SIZE < ADDRESSES && 1 <= Pdi(n * PG_SIZE) <= 1022
    ensures var pde := Pde(w.mem, d, n * PG_SIZE);
            && (Present(pde) ==> FrameOf(pde) != d)
            && (!Present(pde) ==> user && A.Grab(w.kpool) != Some(d))
  {
    hide A.WInv, Pti, A.Grab;
    R.SelfMappedEverywhere(w, d);
    T.OwnersAbove(w);
    T.PageInRange(w, d, user, n);
    A.PageNumber(n);
    P.GrabsFree(w, false);
    if user {
      UserTableApart(w, d, n);
    } else {
      KernelTableApart(w, d, n);
    }
  }

  lemma UserTableApart(w: A.World, d: nat, n: nat)
    requires A.WInv(w) && d in w.dirs && 1 <= n / ENTRIES <= 767
    ensures var pde := Rd(w.mem, Slot(d, n / ENTRIES)); Present(pde) ==> FrameOf(pde) != d
  {
    hide A.Ledger, A.Halves, A.Zeroed;
    if Present(Rd(w.mem, Slot(d, n / ENTRIES))) {
      A.UserTableIs(w, d, n);
    }
  }

  lemma KernelTableApart(w: A.World, d: nat, n: nat)
    requires A.WInv(w) && P.Active(w, d) && 768 <= n / ENTRIES <= 1022
    ensures var pde := Rd(w.mem, Slot(d, n / ENTRIES)); Present(pde) && FrameOf(pde) != d
  {
    hide A.Ledger, A.Accounted, A.Zeroed;
    A.OwnedAbove(w);
    assert Rd(w.mem, Slot(d, n / ENTRIES)) == Entry(A.KTable(n / ENTRIES));
  }

  lemma PtiBound(v: nat)
    ensures Pti(v) < ENTRIES
  {
  }

  lemma ClearedElsewhere(m: Mem, t: nat, d: nat, v: nat)
    requires t != d
    ensures Pde(Cleared(m, t), d, v) == Pde(m, d, v) && (SelfMapped(m, d) ==> SelfMapped(Cleared(m, t), d))
  {
  }
}

/** All address spaces over one physical memory: the two frame pools, the page reservations, every page table, and a
    ledger that says what each allocated frame is. */
module AddressSpaces {
  import opened Options
  import opened Paging
  import B = Bitmaps

  const KDIR: nat := 0x100
  const KTABLE0: nat := 0x101
  const KHEAP_PAGE: nat := 0xC0100
  const USER_PAGE: nat := 0x8048
  const USER_PAGES: nat := 0xC0000 - 0x8048
  const MALLOC_LIMIT: nat := 3840

  /** A pool of struct pool: pages `base + i` for i below size; `used` is the bitmap. */
  datatype Pool = Pool(base: nat, size: nat, used: set<nat>)

  datatype Owner = KernelPage(n: nat) | UserPage(d: nat, n: nat) | Table(d: nat, i: nat)

  /** `dirs` are the process directories; `own` is the ledger of allocated frames. */
  datatype World = World(mem: Mem, dirs: set<nat>, kpool: Pool, upool: Pool, kvirt: Pool, uvirt: map<nat, Pool>,
      own: map<nat, Owner>)

  function KTable(i: nat): nat
    requires i >= 768
  {
    KTABLE0 + (i - 768)
  }

  predicate Holds(p: Pool, page: nat) {
    page >= p.base && page - p.base in p.used
  }

  predicate Covers(p: Pool, page: nat) {
    p.base <= page < p.base + p.size
  }

  // ----- the invariant -----

  ghost predicate Layout(w: World) {
    && 512 <= w.kpool.base && w.upool.base == w.kpool.base + w.kpool.size
    && (forall i | i in w.kpool.used :: i < w.kpool.size) && (forall i | i in w.upool.used :: i < w.upool.size)
    && w.kvirt.base == KHEAP_PAGE && KHEAP_PAGE + w.kvirt.size <= 1023 * ENTRIES
       && (forall i | i in w.kvirt.used :: i < w.kvirt.size)
    && w.uvirt.Keys == w.dirs
    && (forall d | d in w.dirs :: w.uvirt[d].base == USER_PAGE && w.uvirt[d].size == USER_PAGES)
    && (forall d, i | d in w.dirs && i in w.uvirt[d].used :: i < USER_PAGES)
  }

  /** Every directory maps itself and has the same 255 kernel tables; the kernel's own has no user tables. The low
      megabyte stays mapped where the loader put it. */
  ghost predicate Halves(w: World) {
    && (forall d | d == KDIR || d in w.dirs :: SelfMapped(w.mem, d))
    && (forall d, i | (d == KDIR || d in w.dirs) && 768 <= i <= 1022 :: Rd(w.mem, Slot(d, i)) == Entry(KTable(i)))
    && (forall i | 1 <= i <= 767 :: !Present(Rd(w.mem, Slot(KDIR, i))))
    && (forall j | 0 <= j < 256 :: Rd(w.mem, Slot(KTABLE0, j)) == Entry(j))
  }

  ghost predicate Booked(w: World) {
    && (forall f :: f in w.own <==> Holds(w.kpool, f) || Holds(w.upool, f))
    && (forall d | d in w.dirs :: d in w.own && w.own[d].KernelPage?)
  }

  /** What the ledger says of a frame is what the tables say. */
  ghost predicate OwnerOk(w: World, f: nat)
    requires f in w.own && w.uvirt.Keys == w.dirs
  {
    match w.own[f]
    case KernelPage(n) =>
      && Holds(w.kpool, f) && Holds(w.kvirt, n) && 768 <= n / ENTRIES <= 1022
      && Rd(w.mem, Slot(KTable(n / ENTRIES), n % ENTRIES)) == Entry(f)
    case UserPage(d, n) =>
      && Holds(w.upool, f) && d in w.dirs && Holds(w.uvirt[d], n) && 1 <= n / ENTRIES <= 767
      && Present(Rd(w.mem, Slot(d, n / ENTRIES)))
      && Rd(w.mem, Slot(FrameOf(Rd(w.mem, Slot(d, n / ENTRIES))), n % ENTRIES)) == Entry(f)
    case Table(d, i) =>
      && Holds(w.kpool, f) && d in w.dirs && 1 <= i <= 767
      && Rd(w.mem, Slot(d, i)) == Entry(f)
  }

  ghost predicate Ledger(w: World)
    requires w.uvirt.Keys == w.dirs
  {
    forall f | f in w.own :: OwnerOk(w, f)
  }

  predicate HeapEntry(i: nat, j: nat) {
    768 <= i <= 1022 && j < ENTRIES && (i > 768 || j >= 256)
  }

  /** And every present entry of a table is in the ledger: no table and no mapped page is unaccounted for. */
  ghost predicate Accounted(w: World) {
    && (forall d, i | d in w.dirs && 1 <= i <= 767 && Present(Rd(w.mem, Slot(d, i))) ::
          var t := FrameOf(Rd(w.mem, Slot(d, i))); t in w.own && w.own[t] == Table(d, i))
    && (forall i: nat, j: nat | HeapEntry(i, j) && Present(Rd(w.mem, Slot(KTable(i), j))) ::
          var f := FrameOf(Rd(w.mem, Slot(KTable(i), j))); f in w.own && w.own[f] == KernelPage(i * ENTRIES + j))
    && (forall t, j: nat | t in w.own && w.own[t].Table? && j < ENTRIES && Present(Rd(w.mem, Slot(t, j))) ::
          var f := FrameOf(Rd(w.mem, Slot(t, j)));
          f in w.own && w.own[f] == UserPage(w.own[t].d, w.own[t].i * ENTRIES + j))
  }

  /** Frames not handed out yet are still zero. */
  ghost predicate Zeroed(w: World) {
    forall f, j | (Covers(w.kpool, f) || Covers(w.upool, f)) && f !in w.own :: Rd(w.mem, Slot(f, j)) == 0
  }

  ghost predicate WInv(w: World) {
    Layout(w) && Halves(w) && Booked(w) && Ledger(w) && Accounted(w) && Zeroed(w)
  }

  // ----- paddr_get, vaddr_get, v2p_mapping -----

  function Grab(p: Pool): Option<nat> {
    var i := B.FirstFit(p.used, p.size, 0, 1);
    if i < 0 then None else Some(p.base + i)
  }

  function Take(p: Pool, page: nat): Pool
    requires page >= p.base
  {
    p.(used := p.used + {page - p.base})
  }

  lemma GrabIsFree(p: Pool)
    requires forall i | i in p.used :: i < p.size
    ensures Grab(p).None? <==> forall i: nat | i < p.size :: i in p.used
    ensures Grab(p).Some? ==>
              var f := Grab(p).value;
              Covers(p, f) && !Holds(p, f) && forall g | p.base <= g < f :: Holds(p, g)
  {
    B.FirstFitIsLeast(p.used, p.size, 0, 1, 0);
    forall i: nat | i < p.size ensures B.RunAt(p.used, i, 0, 1) <==> i !in p.used {
      assert B.RunAt(p.used, i, 0, 1) ==> i !in p.used;
    }
  }

  /** malloc_page's loop body is one of these: the page got a frame; there was none; v2p_mapping's assertion failed; or
      the kernel pool had no frame for the page table, and physical frame 0 became that table. */
  datatype Mapping = Mapped(w: World) | NoFrame | Repeat | NullTable(mem: Mem)

  function TakeFrame(w: World, user: bool, f: nat): World
    requires f >= (if user then w.upool else w.kpool).base
  {
    if user then w.(upool := Take(w.upool, f)) else w.(kpool := Take(w.kpool, f))
  }

  /** One page: paddr_get on the pool, then v2p_mapping under directory d. */
  function MapPage(w: World, d: nat, user: bool, n: nat): Mapping {
    match Grab(if user then w.upool else w.kpool)
    case None => NoFrame
    case Some(f) =>
      var w1 := TakeFrame(w, user, f);
      var v := n * PG_SIZE;
      var o := if user then UserPage(d, n) else KernelPage(n);
      if Present(Pde(w.mem, d, v)) then
        if Present(Pte(w.mem, d, v)) then Repeat
        else Mapped(w1.(mem := SetPte(w.mem, d, v, f), own := w.own[f := o]))
      else
        match Grab(w1.kpool)
        case None => NullTable(NewTable(w.mem, d, v, 0, f))
        case Some(t) =>
          Mapped(w1.(mem := NewTable(w.mem, d, v, t, f), kpool := Take(w1.kpool, t),
            own := w.own[f := o][t := Table(d, Pdi(v))]))
  }

  // ----- a page of the kernel -----

  lemma PageNumber(n: nat)
    ensures Pdi(n * PG_SIZE) == n / ENTRIES && Pti(n * PG_SIZE) == n % ENTRIES
  {
    assert n * PG_SIZE / PG_SIZE == n;
    assert Pdi(n * PG_SIZE) == n * PG_SIZE / PG_SIZE / ENTRIES;
  }

  function KernelMapped(w: World, n: nat, f: nat): World
    requires f >= w.kpool.base && n / ENTRIES >= 768
  {
    w.(kpool := Take(w.kpool, f), mem := w.mem[Slot(KTable(n / ENTRIES), n % ENTRIES) := Entry(f)],
      own := w.own[f := KernelPage(n)])
  }

  /** Kernel mappings never take the absent-entry branch, whichever directory is active. */
  lemma KernelBranch(w: World, d: nat, n: nat)
    requires Halves(w) && (d == KDIR || d in w.dirs) && 768 <= n / ENTRIES <= 1022
    ensures Pde(w.mem, d, n * PG_SIZE) == Entry(KTable(n / ENTRIES))
    ensures Pte(w.mem, d, n * PG_SIZE) == Rd(w.mem, Slot(KTable(n / ENTRIES), n % ENTRIES))
  {
    PageNumber(n);
  }

  /** Handed-out frames, directories among them, lie above the boot area. */
  lemma OwnedAbove(w: World)
    requires Layout(w) && Booked(w)
    ensures forall f | f in w.own :: f >= 512
    ensures forall d | d in w.dirs :: d >= 512 && d in w.own
  {
  }

  lemma LayoutKeys(w: World)
    requires Layout(w)
    ensures w.uvirt.Keys == w.dirs
  {
  }

  lemma FreeFrame(w: World, f: nat)
    requires Layout(w) && Booked(w) && ((Covers(w.kpool, f) && !Holds(w.kpool, f))
             || (Covers(w.upool, f) && !Holds(w.upool, f)))
    ensures f !in w.own && f !in w.dirs && f >= 512
  {
  }

  /** Pools and directories only gained members, and no present word of memory changed. */
  ghost predicate Grown(w: World, w': World) {
    && w.uvirt.Keys == w.dirs && w'.uvirt.Keys == w'.dirs && w.dirs <= w'.dirs
    && w'.kpool.base == w.kpool.base && w'.upool.base == w.upool.base && w'.kvirt.base == w.kvirt.base
    && w.kpool.used <= w'.kpool.used && w.upool.used <= w'.upool.used && w.kvirt.used <= w'.kvirt.used
    && (forall d | d in w.dirs :: w'.uvirt[d].base == w.uvirt[d].base && w.uvirt[d].used <= w'.uvirt[d].used)
    && (forall s :: Present(Rd(w.mem, s)) ==> Rd(w'.mem, s) == Rd(w.mem, s))
  }

  lemma OwnerKept(w: World, w': World, g: nat)
    requires Grown(w, w') && g in w.own && g in w'.own && w'.own[g] == w.own[g] && OwnerOk(w, g)
    ensures OwnerOk(w', g)
  {
    hide FrameOf, Entry;
    match w.own[g]
    case KernelPage(n) =>
    case UserPage(d, n) =>
    case Table(d, i) =>
  }

  /** One more frame in the ledger, and it is right. */
  lemma LedgerGrows(w: World, w': World, f: nat, o: Owner)
    requires w.uvirt.Keys == w.dirs && w'.uvirt.Keys == w'.dirs
    requires Grown(w, w') && Ledger(w) && f !in w.own && w'.own == w.own[f := o] && OwnerOk(w', f)
    ensures Ledger(w')
  {
    hide OwnerOk, Grown;
    forall g | g in w'.own ensures OwnerOk(w', g) {
      if g != f {
        OwnerKept(w, w', g);
      }
    }
  }

  lemma KernelHalves(w: World, n: nat, f: nat)
    requires Layout(w) && Halves(w) && Booked(w) && f >= w.kpool.base && HeapEntry(n / ENTRIES, n % ENTRIES)
    ensures Halves(KernelMapped(w, n, f))
  {
    OwnedAbove(w);
    var w' := KernelMapped(w, n, f);
    forall d | d == KDIR || d in w.dirs ensures SelfMapped(w'.mem, d) {
      assert SelfMapped(w.mem, d) && d != KTable(n / ENTRIES);
    }
  }

  lemma KernelLedger(w: World, n: nat, f: nat)
    requires Layout(w) && Booked(w) && Ledger(w) && f !in w.own && f >= w.kpool.base && Holds(w.kvirt, n)
             && 768 <= n / ENTRIES <= 1022
    requires !Present(Rd(w.mem, Slot(KTable(n / ENTRIES), n % ENTRIES)))
    ensures Ledger(KernelMapped(w, n, f))
  {
    OwnedAbove(w);
    var w' := KernelMapped(w, n, f);
    hide Ledger;
    assert OwnerOk(w', f);
    assert Grown(w, w');
    LedgerGrows(w, w', f, KernelPage(n));
  }

  lemma KernelAccounted(w: World, n: nat, f: nat)
    requires Layout(w) && Booked(w) && Accounted(w) && f !in w.own && f >= w.kpool.base && 768 <= n / ENTRIES <= 1022
    ensures Accounted(KernelMapped(w, n, f))
  {
    OwnedAbove(w);
  }

  lemma KernelKeeps(w: World, n: nat, f: nat)
    requires WInv(w) && Covers(w.kpool, f) && !Holds(w.kpool, f) && Holds(w.kvirt, n)
    requires !Present(Rd(w.mem, Slot(KTable(n / ENTRIES), n % ENTRIES)))
    requires HeapEntry(n / ENTRIES, n % ENTRIES)
    ensures WInv(KernelMapped(w, n, f))
  {
    hide Halves, Ledger, Accounted;
    FreeFrame(w, f);
    KernelHalves(w, n, f);
    KernelLedger(w, n, f);
    KernelAccounted(w, n, f);
  }

  // ----- a page of a process, under a table that exists -----

  function UserTable(w: World, d: nat, n: nat): nat {
    FrameOf(Rd(w.mem, Slot(d, n / ENTRIES)))
  }

  function UserMapped(w: World, d: nat, n: nat, f: nat): World
    requires f >= w.upool.base
  {
    w.(upool := Take(w.upool, f), mem := w.mem[Slot(UserTable(w, d, n), n % ENTRIES) := Entry(f)],
      own := w.own[f := UserPage(d, n)])
  }

  /** The table of a user page is a page table of that directory, so it is no directory and no kernel table. */
  lemma UserTableIs(w: World, d: nat, n: nat)
    requires Layout(w) && Booked(w) && Accounted(w) && d in w.dirs && 1 <= n / ENTRIES <= 767
             && Present(Rd(w.mem, Slot(d, n / ENTRIES)))
    ensures var t := UserTable(w, d, n); t in w.own && w.own[t] == Table(d, n / ENTRIES) && t >= 512 && t !in w.dirs
  {
    OwnedAbove(w);
  }

  lemma UserHalves(w: World, d: nat, n: nat, f: nat)
    requires Halves(w) && f >= w.upool.base && UserTable(w, d, n) >= 512 && UserTable(w, d, n) !in w.dirs
    ensures Halves(UserMapped(w, d, n, f))
  {
    var w' := UserMapped(w, d, n, f);
    forall e | e == KDIR || e in w.dirs ensures SelfMapped(w'.mem, e) {
      assert SelfMapped(w.mem, e);
    }
  }

  lemma UserLedger(w: World, d: nat, n: nat, f: nat)
    requires Layout(w) && Booked(w) && Ledger(w) && f !in w.own && f >= w.upool.base
    requires d in w.dirs && Holds(w.uvirt[d], n) && 1 <= n / ENTRIES <= 767
    requires Present(Rd(w.mem, Slot(d, n / ENTRIES))) && !Present(Rd(w.mem, Slot(UserTable(w, d, n), n % ENTRIES)))
    requires UserTable(w, d, n) >= 512 && UserTable(w, d, n) !in w.dirs
    ensures Ledger(UserMapped(w, d, n, f))
  {
    OwnedAbove(w);
    var w' := UserMapped(w, d, n, f);
    hide Ledger;
    assert OwnerOk(w', f);
    assert Grown(w, w');
    LedgerGrows(w, w', f, UserPage(d, n));
  }

  lemma UserAccounted(w: World, d: nat, n: nat, f: nat)
    requires Layout(w) && Booked(w) && Accounted(w) && f !in w.own && f >= w.upool.base
    requires var t := UserTable(w, d, n); t in w.own && w.own[t] == Table(d, n / ENTRIES) && t >= 512 && t !in w.dirs
    ensures Accounted(UserMapped(w, d, n, f))
  {
    OwnedAbove(w);
    assert n == n / ENTRIES * ENTRIES + n % ENTRIES;
  }

  lemma UserRest(w: World, d: nat, n: nat, f: nat)
    requires Layout(w) && Booked(w) && Zeroed(w) && Covers(w.upool, f) && !Holds(w.upool, f)
    requires UserTable(w, d, n) in w.own
    ensures Layout(UserMapped(w, d, n, f)) && Booked(UserMapped(w, d, n, f)) && Zeroed(UserMapped(w, d, n, f))
  {
    hide Entry;
  }

  lemma UserKeeps(w: World, d: nat, n: nat, f: nat)
    requires WInv(w) && Covers(w.upool, f) && !Holds(w.upool, f)
    requires d in w.dirs && Holds(w.uvirt[d], n) && 1 <= n / ENTRIES <= 767
    requires Present(Rd(w.mem, Slot(d, n / ENTRIES))) && !Present(Rd(w.mem, Slot(UserTable(w, d, n), n % ENTRIES)))
    ensures WInv(UserMapped(w, d, n, f))
  {
    hide Halves, Ledger, Accounted, Booked, Layout, Zeroed;
    FreeFrame(w, f);
    UserTableIs(w, d, n);
    assert Covers(w.upool, f) && f >= w.upool.base;
    assert w.uvirt.Keys == w.dirs by { LayoutKeys(w); }
    UserRest(w, d, n, f);
    UserHalves(w, d, n, f);
    UserLedger(w, d, n, f);
    UserAccounted(w, d, n, f);
  }

  // ----- a new page table for a process -----

  /** Frame t leaves the kernel pool and becomes the table of directory entry i; it is cleared. */
  function TableAdded(w: World, d: nat, i: nat, t: nat): World
    requires t >= w.kpool.base
  {
    w.(kpool := Take(w.kpool, t), mem := Cleared(w.mem[Slot(d, i) := Entry(t)], t), own := w.own[t := Table(d, i)])
  }

  lemma TableReads(w: World, d: nat, i: nat, t: nat)
    requires Layout(w) && Zeroed(w) && Covers(w.kpool, t) && t !in w.own && t != d
    ensures forall s :: Rd(TableAdded(w, d, i, t).mem, s) == if s == Slot(d, i) then Entry(t) else Rd(w.mem, s)
  {
  }

  lemma TableLedger(w: World, d: nat, i: nat, t: nat)
    requires Layout(w) && Booked(w) && Ledger(w) && Zeroed(w) && Covers(w.kpool, t) && t !in w.own
    requires d in w.dirs && 1 <= i <= 767 && !Present(Rd(w.mem, Slot(d, i)))
    ensures Ledger(TableAdded(w, d, i, t))
  {
    OwnedAbove(w);
    TableReads(w, d, i, t);
    hide Cleared, Ledger;
    var w' := TableAdded(w, d, i, t);
    assert OwnerOk(w', t);
    assert Grown(w, w');
    LedgerGrows(w, w', t, Table(d, i));
  }

  lemma TableHalves(w: World, d: nat, i: nat, t: nat)
    requires Layout(w) && Halves(w) && Booked(w) && Zeroed(w) && Covers(w.kpool, t) && t !in w.own
    requires d in w.dirs && 1 <= i <= 767
    ensures Halves(TableAdded(w, d, i, t))
  {
    OwnedAbove(w);
    TableReads(w, d, i, t);
    hide Cleared;
    var w' := TableAdded(w, d, i, t);
    forall e | e == KDIR || e in w.dirs ensures SelfMapped(w'.mem, e) {
      assert SelfMapped(w.mem, e);
    }
  }

  lemma TableAccounted(w: World, w': World, d: nat, i: nat, t: nat)
    requires Accounted(w) && w'.dirs == w.dirs && w'.own == w.own[t := Table(d, i)] && t !in w.own
    requires d in w.dirs && 1 <= i <= 767 && t >= 512 && forall e | e in w.dirs ::
             e >= 512 && e in w.own && w.own[e].KernelPage?
    requires forall s :: Rd(w'.mem, s) == if s == Slot(d, i) then Entry(t) else Rd(w.mem, s)
    requires forall j :: Rd(w.mem, Slot(t, j)) == 0
    ensures Accounted(w')
  {
    assert forall f | f in w.own :: f != t && w'.own[f] == w.own[f];
  }

  lemma TableAccounts(w: World, d: nat, i: nat, t: nat)
    requires Layout(w) && Booked(w) && Accounted(w) && Zeroed(w) && Covers(w.kpool, t) && t !in w.own
    requires d in w.dirs && 1 <= i <= 767
    ensures Accounted(TableAdded(w, d, i, t))
  {
    hide Accounted, Cleared;
    OwnedAbove(w);
    TableReads(w, d, i, t);
    TableAccounted(w, TableAdded(w, d, i, t), d, i, t);
  }

  lemma TableRest(w: World, d: nat, i: nat, t: nat)
    requires Layout(w) && Booked(w) && Zeroed(w) && Covers(w.kpool, t) && t !in w.own
    requires d in w.dirs && 1 <= i <= 767
    ensures var w' := TableAdded(w, d, i, t); Layout(w') && Booked(w') && Zeroed(w')
  {
    OwnedAbove(w);
    TableReads(w, d, i, t);
    hide Cleared;
  }

  lemma TableKeeps(w: World, d: nat, i: nat, t: nat)
    requires WInv(w) && Covers(w.kpool, t) && t !in w.own
    requires d in w.dirs && 1 <= i <= 767 && !Present(Rd(w.mem, Slot(d, i)))
    ensures WInv(TableAdded(w, d, i, t))
  {
    hide Halves, Ledger, Accounted, Zeroed, Booked, Layout;
    assert w.uvirt.Keys == w.dirs by { LayoutKeys(w); }
    TableHalves(w, d, i, t);
    TableLedger(w, d, i, t);
    TableAccounts(w, d, i, t);
    TableRest(w, d, i, t);
  }

  // ----- what the tables and the ledger say of one page -----

  function PageOwner(user: bool, d: nat, n: nat): Owner {
    if user then UserPage(d, n) else KernelPage(n)
  }

  ghost predicate Has(own: map<nat, Owner>, o: Owner) {
    exists f :: f in own && own[f] == o
  }

  /** The tables give object o the frame f. */
  predicate Claims(w: World, o: Owner, f: nat) {
    match o
    case KernelPage(n) => HeapEntry(n / ENTRIES, n % ENTRIES) && Walk(w.mem, KDIR, n * PG_SIZE) == Some(f * PG_SIZE)
    case UserPage(d, n) => d in w.dirs && 1 <= n / ENTRIES <= 767 && Walk(w.mem, d, n * PG_SIZE) == Some(f * PG_SIZE)
    case Table(d, i) =>
      && d in w.dirs && 1 <= i <= 767 && Present(Rd(w.mem, Slot(d, i)))
      && FrameOf(Rd(w.mem, Slot(d, i))) == f
  }

  lemma HeapPage(w: World, n: nat)
    requires Layout(w) && Holds(w.kvirt, n)
    ensures HeapEntry(n / ENTRIES, n % ENTRIES)
  {
  }

  /** The tables of all directories and the ledger are the same information: the ledger entry of a frame is the one page
      or page table that the tables give it to. */
  lemma LedgerIsTables(w: World, o: Owner, f: nat)
    requires WInv(w)
    ensures Claims(w, o, f) <==> f in w.own && w.own[f] == o
  {
    if f in w.own && w.own[f] == o {
      LedgerHasClaim(w, f);
    }
    if Claims(w, o, f) {
      ClaimIsBooked(w, o, f);
    }
  }

  lemma LedgerHasClaim(w: World, f: nat)
    requires WInv(w) && f in w.own
    ensures Claims(w, w.own[f], f)
  {
    hide Accounted, Zeroed, Booked;
    assert OwnerOk(w, f);
    match w.own[f]
    case KernelPage(n) =>
      HeapPage(w, n);
      PageNumber(n);
      assert Rd(w.mem, Slot(KDIR, n / ENTRIES)) == Entry(KTable(n / ENTRIES));
    case UserPage(d, n) => PageNumber(n);
    case Table(d, i) =>
  }

  lemma ClaimIsBooked(w: World, o: Owner, f: nat)
    requires WInv(w) && Claims(w, o, f)
    ensures f in w.own && w.own[f] == o
  {
    hide Ledger, Zeroed;
    match o
    case KernelPage(n) =>
      PageNumber(n);
      assert Rd(w.mem, Slot(KDIR, n / ENTRIES)) == Entry(KTable(n / ENTRIES));
      assert n / ENTRIES * ENTRIES + n % ENTRIES == n;
    case UserPage(d, n) =>
      PageNumber(n);
      UserTableIs(w, d, n);
      assert n / ENTRIES * ENTRIES + n % ENTRIES == n;
    case Table(d, i) =>
  }
}

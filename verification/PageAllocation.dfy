/** One page given a frame, and malloc_page: which of its outcomes a call has, and the state it leaves. */
module PageAllocation {
  import opened Options
  import opened Paging
  import opened AddressSpaces
  import B = Bitmaps

  // ----- one page -----

  /** The pool was empty, so the loop of malloc_page stops. */
  predicate Exhausted(p: Pool) {
    forall i: nat | i < p.size :: i in p.used
  }

  /** The bitmap of virtual pages a call draws on. A thread without a page directory has an all-zero pool of its own. */
  function Virtual(w: World, d: nat, user: bool): Pool {
    if !user then w.kvirt else if d in w.uvirt then w.uvirt[d] else Pool(0, 0, {})
  }

  function Physical(w: World, user: bool): Pool {
    if user then w.upool else w.kpool
  }

  predicate Active(w: World, d: nat) {
    d == KDIR || d in w.dirs
  }

  /** From w to w' the pages n .. n + cnt were given frames that were free before, and page tables as needed; every
      frame kept its owner, and nothing else was handed out. */
  ghost predicate Grows(w: World, w': World, d: nat, user: bool, n: nat, cnt: nat) {
    && w'.dirs == w.dirs && w'.kvirt == w.kvirt && w'.uvirt == w.uvirt
    && (forall f | f in w.own :: f in w'.own && w'.own[f] == w.own[f])
    && (forall f | f in w'.own && f !in w.own ::
          w'.own[f].Table? || exists m: nat :: n <= m < n + cnt && w'.own[f] == PageOwner(user, d, m))
    && (forall m: nat | n <= m < n + cnt :: Has(w'.own, PageOwner(user, d, m)))
  }

  lemma KernelIndex(w: World, d: nat, n: nat)
    requires WInv(w) && Active(w, d) && Holds(w.kvirt, n)
    ensures HeapEntry(n / ENTRIES, n % ENTRIES)
    ensures Pde(w.mem, d, n * PG_SIZE) == Entry(KTable(n / ENTRIES))
    ensures Pte(w.mem, d, n * PG_SIZE) == Rd(w.mem, Slot(KTable(n / ENTRIES), n % ENTRIES))
  {
    hide Ledger, Accounted, Zeroed, Booked;
    HeapPage(w, n);
    KernelBranch(w, d, n);
  }

  lemma KernelUnmapped(w: World, n: nat)
    requires WInv(w) && Holds(w.kvirt, n)
    ensures HeapEntry(n / ENTRIES, n % ENTRIES)
    ensures Present(Rd(w.mem, Slot(KTable(n / ENTRIES), n % ENTRIES))) <==> Has(w.own, KernelPage(n))
  {
    hide WInv;
    var v, o := n * PG_SIZE, KernelPage(n);
    KernelIndex(w, KDIR, n);
    assert Off(v) == 0;
    var g := FrameOf(Pte(w.mem, KDIR, v));
    if Present(Pte(w.mem, KDIR, v)) {
      LedgerIsTables(w, o, g);
    } else {
      assert forall f: nat :: !Claims(w, o, f);
      forall f: nat ensures !(f in w.own && w.own[f] == o) {
        LedgerIsTables(w, o, f);
      }
    }
  }

  lemma KernelPageMaps(w: World, d: nat, n: nat)
    requires WInv(w) && Active(w, d) && Holds(w.kvirt, n)
    ensures match MapPage(w, d, false, n)
            case Mapped(w') => WInv(w') && Grows(w, w', d, false, n, 1)
            case NoFrame => Exhausted(w.kpool)
            case Repeat => Has(w.own, KernelPage(n)) && !Exhausted(w.kpool)
            case NullTable(m) => false
    ensures MapPage(w, d, false, n).NoFrame? <==> Exhausted(w.kpool)
    ensures MapPage(w, d, false, n).Repeat? <==> !Exhausted(w.kpool) && Has(w.own, KernelPage(n))
  {
    hide WInv, Grows, Has, Exhausted, Walk, Grab;
    PageNumber(n);
    KernelIndex(w, d, n);
    KernelUnmapped(w, n);
    GrabsFree(w, false);
    if Grab(w.kpool).Some? && !Has(w.own, KernelPage(n)) {
      var f := Grab(w.kpool).value;
      KernelKeeps(w, n, f);
      var w' := KernelMapped(w, n, f);
      assert MapPage(w, d, false, n) == Mapped(w');
      OwnerIsNew(w, w', d, false, n, f);
    }
  }

  lemma UserIndex(w: World, d: nat, n: nat)
    requires WInv(w) && d in w.dirs && Holds(w.uvirt[d], n)
    ensures 1 <= n / ENTRIES <= 767
  {
  }

  /** paddr_get hands out a frame that the ledger does not know, or the pool is exhausted. */
  lemma GrabsFree(w: World, user: bool)
    requires WInv(w)
    ensures var p := Physical(w, user);
            match Grab(p)
            case None => Exhausted(p)
            case Some(f) => !Exhausted(p) && Covers(p, f) && !Holds(p, f) && f !in w.own && f >= p.base
  {
    hide Halves, Ledger, Accounted, Zeroed;
    GrabIsFree(Physical(w, user));
    match Grab(Physical(w, user))
    case None =>
    case Some(f) => FreeFrame(w, f);
  }

  lemma NewTableEntries(w: World, d: nat, i: nat, j: nat, t: nat)
    requires WInv(w) && d in w.dirs && Covers(w.kpool, t) && !Holds(w.kpool, t)
    ensures t !in w.own && t != d && t >= w.kpool.base
    ensures var w1 := TableAdded(w, d, i, t); Rd(w1.mem, Slot(d, i)) == Entry(t) && Rd(w1.mem, Slot(t, j)) == 0
  {
    hide Halves, Ledger, Accounted, Cleared;
    FreeFrame(w, t);
    TableReads(w, d, i, t);
  }

  /** The directory entry of a user page is missing: page table and page are two steps. */
  lemma UserNewTable(w: World, d: nat, n: nat, t: nat, f: nat)
    requires WInv(w) && d in w.dirs && Holds(w.uvirt[d], n) && !Present(Rd(w.mem, Slot(d, n / ENTRIES)))
    requires Covers(w.kpool, t) && !Holds(w.kpool, t) && Covers(w.upool, f) && !Holds(w.upool, f)
    ensures 1 <= n / ENTRIES <= 767
    ensures var w1 := TableAdded(w, d, n / ENTRIES, t); WInv(UserMapped(w1, d, n, f)) && UserTable(w1, d, n) == t
  {
    hide WInv, Cleared;
    UserIndex(w, d, n);
    NewTableEntries(w, d, n / ENTRIES, n % ENTRIES, t);
    TableKeeps(w, d, n / ENTRIES, t);
    UserKeeps(TableAdded(w, d, n / ENTRIES, t), d, n, f);
  }

  lemma UserUnmapped(w: World, d: nat, n: nat)
    requires WInv(w) && d in w.dirs && Holds(w.uvirt[d], n)
    ensures Present(Pde(w.mem, d, n * PG_SIZE)) && Present(Pte(w.mem, d, n * PG_SIZE)) <==> Has(w.own, UserPage(d, n))
  {
    hide WInv;
    UserIndex(w, d, n);
    var v := n * PG_SIZE;
    assert Off(v) == 0;
    var g := FrameOf(Pte(w.mem, d, v));
    var o := UserPage(d, n);
    if Present(Pde(w.mem, d, v)) && Present(Pte(w.mem, d, v)) {
      LedgerIsTables(w, o, g);
    } else {
      assert forall f: nat :: !Claims(w, o, f);
      forall f: nat ensures !(f in w.own && w.own[f] == o) {
        LedgerIsTables(w, o, f);
      }
    }
  }

  lemma OwnerIsNew(w: World, w': World, d: nat, user: bool, n: nat, f: nat)
    requires w'.dirs == w.dirs && w'.kvirt == w.kvirt && w'.uvirt == w.uvirt && f !in w.own
    requires w'.own == w.own[f := PageOwner(user, d, n)]
             || exists t: nat, i: nat ::
               t != f && t !in w.own && w'.own == w.own[t := Table(d, i)][f := PageOwner(user, d, n)]
    ensures Grows(w, w', d, user, n, 1)
  {
    assert w'.own[f] == PageOwner(user, d, n);
  }

  lemma UserPageMaps(w: World, d: nat, n: nat)
    requires WInv(w) && d in w.dirs && Holds(w.uvirt[d], n)
    ensures match MapPage(w, d, true, n)
            case Mapped(w') => WInv(w') && Grows(w, w', d, true, n, 1)
            case NoFrame => Exhausted(w.upool)
            case Repeat => Has(w.own, UserPage(d, n)) && !Exhausted(w.upool)
            case NullTable(m) => true
    ensures MapPage(w, d, true, n).NoFrame? <==> Exhausted(w.upool)
    ensures MapPage(w, d, true, n).Repeat? <==> !Exhausted(w.upool) && Has(w.own, UserPage(d, n))
    ensures MapPage(w, d, true, n).NullTable?
            <==> !Exhausted(w.upool) && Exhausted(w.kpool) && !Present(Pde(w.mem, d, n * PG_SIZE))
  {
    hide WInv, Grows, Has, Walk, Exhausted;
    GrabsFree(w, true);
    GrabsFree(w, false);
    UserUnmapped(w, d, n);
    if Grab(w.upool).Some? && !Has(w.own, UserPage(d, n)) {
      if Present(Pde(w.mem, d, n * PG_SIZE)) {
        UserPageMapsInTable(w, d, n, Grab(w.upool).value);
      } else if Grab(w.kpool).Some? {
        UserPageMapsNewTable(w, d, n, Grab(w.kpool).value, Grab(w.upool).value);
      }
    }
  }

  lemma UserPageMapsInTable(w: World, d: nat, n: nat, f: nat)
    requires WInv(w) && d in w.dirs && Holds(w.uvirt[d], n) && Present(Pde(w.mem, d, n * PG_SIZE))
             && !Present(Pte(w.mem, d, n * PG_SIZE))
    requires Grab(w.upool) == Some(f)
    ensures var r := MapPage(w, d, true, n); r.Mapped? && WInv(r.w) && Grows(w, r.w, d, true, n, 1)
  {
    hide WInv, Grows, Grab;
    PageNumber(n);
    UserIndex(w, d, n);
    GrabsFree(w, true);
    UserKeeps(w, d, n, f);
    var w' := UserMapped(w, d, n, f);
    assert MapPage(w, d, true, n) == Mapped(w');
    OwnerIsNew(w, w', d, true, n, f);
  }

  lemma PoolsApart(w: World, t: nat, f: nat)
    requires WInv(w) && Covers(w.kpool, t) && Covers(w.upool, f)
    ensures t != f
  {
  }

  lemma UserPageMapsNewTable(w: World, d: nat, n: nat, t: nat, f: nat)
    requires WInv(w) && d in w.dirs && Holds(w.uvirt[d], n) && !Present(Pde(w.mem, d, n * PG_SIZE))
    requires Grab(w.kpool) == Some(t) && Grab(w.upool) == Some(f)
    ensures var r := MapPage(w, d, true, n); r.Mapped? && WInv(r.w) && Grows(w, r.w, d, true, n, 1)
  {
    hide WInv, Grows, Grab, Cleared;
    PageNumber(n);
    GrabsFree(w, true);
    GrabsFree(w, false);
    PoolsApart(w, t, f);
    UserNewTable(w, d, n, t, f);
    var w' := UserMapped(TableAdded(w, d, n / ENTRIES, t), d, n, f);
    assert w.own[f := UserPage(d, n)][t := Table(d, n / ENTRIES)]
           == w.own[t := Table(d, n / ENTRIES)][f := UserPage(d, n)];
    assert MapPage(w, d, true, n) == Mapped(w');
    OwnerIsNew(w, w', d, true, n, f);
  }

  // ----- malloc_page -----

  /** Failed is the NULL return; Corrupted is v2p_mapping going on without a page table, in world w, leaving memory
      mem. */
  datatype Outcome = Done(w: World, page: nat) | Failed(w: World) | Panicked | Corrupted(w: World, mem: Mem)

  function MapPages(w: World, d: nat, user: bool, n: nat, cnt: nat): Outcome
    decreases cnt
  {
    if cnt == 0 then Done(w, n)
    else match MapPage(w, d, user, n)
      case Mapped(w1) => MapPages(w1, d, user, n + 1, cnt - 1)
      case NoFrame => Failed(w)
      case Repeat => Panicked
      case NullTable(m) => Corrupted(w, m)
  }

  function Range(i: nat, cnt: nat): (r: set<nat>)
    ensures forall k :: k in r <==> i <= k < i + cnt
  {
    if cnt == 0 then {} else Range(i, cnt - 1) + {i + cnt - 1}
  }

  /** vaddr_get's loop of bitmap_set. */
  function Reserved(p: Pool, i: nat, cnt: nat): Pool {
    p.(used := p.used + Range(i, cnt))
  }

  function WithVirtual(w: World, d: nat, user: bool, p: Pool): World {
    if !user then w.(kvirt := p) else if d in w.uvirt then w.(uvirt := w.uvirt[d := p]) else w
  }

  /** Where vaddr_get puts cnt pages: the first page of the lowest run of free ones. */
  function VaddrGet(p: Pool, cnt: nat): (r: Option<nat>)
    ensures r.Some? ==> r.value >= p.base
  {
    var i := B.FirstFit(p.used, p.size, 0, cnt);
    if i < 0 then None else Some(p.base + i)
  }

  function StartingAt(n: nat, r: Outcome): Outcome {
    if r.Done? then Done(r.w, n) else r
  }

  /** vaddr_get, then a frame and a mapping for each page; nothing is undone on failure. */
  function MallocPage(w: World, d: nat, user: bool, cnt: nat): Outcome {
    if !(0 < cnt < MALLOC_LIMIT) then Panicked
    else
      var p := Virtual(w, d, user);
      match VaddrGet(p, cnt)
      case None => Failed(w)
      case Some(n) => StartingAt(n, MapPages(WithVirtual(w, d, user, Reserved(p, n - p.base, cnt)), d, user, n, cnt))
  }

  /** The page table of user page n does not exist yet and no frame is left for it. */
  predicate TableFails(w: World, d: nat, user: bool, n: nat) {
    user && !Present(Pde(w.mem, d, n * PG_SIZE)) && Exhausted(w.kpool)
  }

  /** One page of malloc_page's loop or of target_vaddr_malloc: which of the four ends it comes to is decided by the
      state before, and a page that is mapped got a free frame. */
  lemma PageMaps(w: World, d: nat, user: bool, n: nat)
    requires WInv(w) && Active(w, d) && (user ==> d in w.dirs) && Holds(Virtual(w, d, user), n)
    ensures MapPage(w, d, user, n).Mapped? ==>
              var w' := MapPage(w, d, user, n).w;
              WInv(w') && Grows(w, w', d, user, n, 1) && LowestFirst(w, w', d, user)
    ensures MapPage(w, d, user, n).NoFrame? <==> Exhausted(Physical(w, user))
    ensures MapPage(w, d, user, n).Repeat? <==> !Exhausted(Physical(w, user)) && Has(w.own, PageOwner(user, d, n))
    ensures MapPage(w, d, user, n).NullTable? <==> !Exhausted(Physical(w, user)) && TableFails(w, d, user, n)
    ensures Has(w.own, PageOwner(user, d, n)) ==> !TableFails(w, d, user, n)
  {
    hide WInv, Grows, Has, Exhausted, MapPage, Pte, LowestFirst;
    VirtualPool(w, d, user);
    if MapPage(w, d, user, n).Mapped? {
      PageTakesLowest(w, d, user, n);
    }
    if user {
      UserUnmapped(w, d, n);
      UserPageMaps(w, d, n);
    } else {
      KernelPageMaps(w, d, n);
    }
  }

  lemma VirtualPool(w: World, d: nat, user: bool)
    requires WInv(w) && (user ==> d in w.dirs)
    ensures Virtual(w, d, user) == if user then w.uvirt[d] else w.kvirt
    ensures forall i | i in Virtual(w, d, user).used :: i < Virtual(w, d, user).size
  {
  }

  lemma GrowsChains(w: World, w1: World, w2: World, d: nat, user: bool, n: nat, k: nat)
    requires Grows(w, w1, d, user, n, 1) && Grows(w1, w2, d, user, n + 1, k)
    ensures Grows(w, w2, d, user, n, k + 1)
  {
    assert Has(w1.own, PageOwner(user, d, n));
    forall f | f in w2.own && f !in w.own
      ensures w2.own[f].Table? || exists m: nat :: n <= m < n + k + 1 && w2.own[f] == PageOwner(user, d, m)
    {
      if f in w1.own {
        assert w2.own[f] == w1.own[f];
      }
    }
    var f :| f in w1.own && w1.own[f] == PageOwner(user, d, n);
    assert w2.own[f] == PageOwner(user, d, n);
  }

  // ----- which frames a call takes -----

  function PoolOf(w: World, user: bool, o: Owner): Pool {
    if o.Table? then w.kpool else Physical(w, user)
  }

  ghost predicate PoolGrows(p: Pool, p': Pool) {
    p'.base == p.base && p'.size == p.size && p.used <= p'.used
  }

  /** Frame f was free and is taken, and none below it is left free. */
  ghost predicate Lowest(p: Pool, p': Pool, f: nat) {
    Covers(p, f) && !Holds(p, f) && forall g | p.base <= g <= f :: Holds(p', g)
  }

  /** Frames are handed out lowest first: each was free, no frame below it is left free, and a page further up has a
      frame further up. Pages take theirs from the caller's pool, page tables from the kernel's. */
  ghost predicate LowestFirst(w: World, w': World, d: nat, user: bool) {
    && PoolGrows(w.kpool, w'.kpool) && PoolGrows(w.upool, w'.upool)
    && (forall f | f in w'.own && f !in w.own :: Lowest(PoolOf(w, user, w'.own[f]), PoolOf(w', user, w'.own[f]), f))
    && (forall f, g, m: nat, m': nat | f in w'.own && f !in w.own && g in w'.own && g !in w.own && m < m'
          && w'.own[f] == PageOwner(user, d, m) && w'.own[g] == PageOwner(user, d, m') :: f < g)
  }

  lemma PageTakesLowest(w: World, d: nat, user: bool, n: nat)
    requires WInv(w) && MapPage(w, d, user, n).Mapped?
    ensures LowestFirst(w, MapPage(w, d, user, n).w, d, user)
  {
    hide WInv, Grab, SetPte, NewTable, Take, Holds, LowestFirst, MapPage;
    if Present(Pde(w.mem, d, n * PG_SIZE)) {
      FrameIsLowest(w, d, user, n);
    } else {
      TableIsLowest(w, d, user, n);
    }
  }

  lemma FrameIsLowest(w: World, d: nat, user: bool, n: nat)
    requires WInv(w) && MapPage(w, d, user, n).Mapped? && Present(Pde(w.mem, d, n * PG_SIZE))
    ensures LowestFirst(w, MapPage(w, d, user, n).w, d, user)
  {
    hide WInv, Grab, SetPte, NewTable, Take, Holds;
    PoolsBounded(w);
    GrabIsFree(Physical(w, user));
    Taken(Physical(w, user), Grab(Physical(w, user)).value);
  }

  lemma TableIsLowest(w: World, d: nat, user: bool, n: nat)
    requires WInv(w) && MapPage(w, d, user, n).Mapped? && !Present(Pde(w.mem, d, n * PG_SIZE))
    ensures LowestFirst(w, MapPage(w, d, user, n).w, d, user)
  {
    hide WInv, Grab, SetPte, NewTable, Take, Holds;
    PoolsBounded(w);
    var p, f := Physical(w, user), Grab(Physical(w, user)).value;
    GrabIsFree(p);
    Taken(p, f);
    var k := TakeFrame(w, user, f).kpool;
    GrabIsFree(k);
    Taken(k, Grab(k).value);
  }

  /** Taking the lowest free frame leaves none below it free. */
  lemma Taken(p: Pool, f: nat)
    requires Covers(p, f) && !Holds(p, f) && forall g | p.base <= g < f :: Holds(p, g)
    ensures PoolGrows(p, Take(p, f)) && forall g | p.base <= g <= f :: Holds(Take(p, f), g)
    ensures (forall i | i in p.used :: i < p.size) ==> forall i | i in Take(p, f).used :: i < p.size
    ensures forall g | Holds(p, g) :: Holds(Take(p, f), g)
  {
    forall g | p.base <= g <= f ensures Holds(Take(p, f), g) {
      assert g < f ==> Holds(p, g);
    }
  }

  lemma LowestChains(w: World, w1: World, w2: World, d: nat, user: bool, n: nat, k: nat)
    requires Grows(w, w1, d, user, n, 1) && Grows(w1, w2, d, user, n + 1, k)
    requires LowestFirst(w, w1, d, user) && LowestFirst(w1, w2, d, user)
    ensures LowestFirst(w, w2, d, user)
  {
    hide Lowest;
    forall f | f in w2.own && f !in w.own ensures Lowest(PoolOf(w, user, w2.own[f]), PoolOf(w2, user, w2.own[f]), f) {
      var o := w2.own[f];
      assert f in w1.own ==> w1.own[f] == o;
      StillLowest(PoolOf(w, user, o), PoolOf(w1, user, o), PoolOf(w2, user, o), f);
    }
    forall f, g, m: nat, m': nat | f in w2.own && f !in w.own && g in w2.own && g !in w.own && m < m'
                                   && w2.own[f] == PageOwner(user, d, m) && w2.own[g] == PageOwner(user, d, m')
      ensures f < g
    {
      PagesInOrder(w, w1, w2, d, user, n, k, f, g, m, m');
    }
  }

  lemma StillLowest(p: Pool, p1: Pool, p2: Pool, f: nat)
    requires PoolGrows(p, p1) && PoolGrows(p1, p2) && (Lowest(p, p1, f) || Lowest(p1, p2, f))
    ensures Lowest(p, p2, f)
  {
    HoldsGrows(p, p1);
    HoldsGrows(p1, p2);
    hide Holds, Covers;
    forall g | p.base <= g <= f ensures Holds(p2, g) {
      assert Lowest(p, p1, f) ==> Holds(p1, g);
    }
  }

  lemma PagesInOrder(w: World, w1: World, w2: World, d: nat, user: bool, n: nat, k: nat, f: nat, g: nat, m: nat,
      m': nat)
    requires Grows(w, w1, d, user, n, 1) && Grows(w1, w2, d, user, n + 1, k)
    requires LowestFirst(w, w1, d, user) && LowestFirst(w1, w2, d, user)
    requires f in w2.own && f !in w.own && g in w2.own && g !in w.own && m < m'
    requires w2.own[f] == PageOwner(user, d, m) && w2.own[g] == PageOwner(user, d, m')
    ensures f < g
  {
    hide Lowest;
    assert g in w1.own ==> w1.own[g] == w2.own[g] && m' == n;
    if f in w1.own {
      assert w1.own[f] == w2.own[f];
      if g !in w1.own {
        Above(Physical(w, user), Physical(w1, user), Physical(w2, user), f, g);
      }
    }
  }

  lemma Above(p: Pool, p1: Pool, p2: Pool, f: nat, g: nat)
    requires Lowest(p, p1, f) && Lowest(p1, p2, g) && p1.base == p.base
    ensures f < g
  {
    assert p1.base <= g <= f ==> Holds(p1, g);
  }

  lemma HoldsGrows(p: Pool, p': Pool)
    requires PoolGrows(p, p')
    ensures forall g :: Holds(p, g) ==> Holds(p', g)
    ensures forall g :: Covers(p, g) <==> Covers(p', g)
  {
  }

  lemma NothingTaken(w: World, d: nat, user: bool)
    ensures LowestFirst(w, w, d, user)
  {
  }

  lemma PoolsBounded(w: World)
    requires WInv(w)
    ensures forall i | i in w.kpool.used :: i < w.kpool.size
    ensures forall i | i in w.upool.used :: i < w.upool.size
  {
  }

  ghost predicate Unmapped(w: World, d: nat, user: bool, n: nat, cnt: nat) {
    forall m: nat | n <= m < n + cnt :: Holds(Virtual(w, d, user), m) && !Has(w.own, PageOwner(user, d, m))
  }

  lemma OneMapped(w: World, w1: World, d: nat, user: bool, n: nat, cnt: nat)
    requires cnt > 0 && Unmapped(w, d, user, n, cnt) && Grows(w, w1, d, user, n, 1)
    ensures Unmapped(w1, d, user, n + 1, cnt - 1)
  {
    forall m: nat | n + 1 <= m < n + cnt ensures Holds(Virtual(w1, d, user), m) && !Has(w1.own, PageOwner(user, d, m)) {
      assert Holds(Virtual(w, d, user), m) && !Has(w.own, PageOwner(user, d, m));
      forall f | f in w1.own ensures w1.own[f] != PageOwner(user, d, m) {
        if f in w.own {
          assert w1.own[f] == w.own[f];
        }
      }
    }
  }

  /** What is left when the loop stops early: k pages mapped, and the pool it drew on exhausted. */
  ghost predicate StoppedAt(w: World, r: Outcome, d: nat, user: bool, n: nat, k: nat)
    requires r.Failed? || r.Corrupted?
  {
    WInv(r.w) && Grows(w, r.w, d, user, n, k) && Exhausted(if r.Failed? then Physical(r.w, user) else r.w.kpool)
  }

  ghost predicate Stopped(w: World, r: Outcome, d: nat, user: bool, n: nat, cnt: nat)
    requires r.Failed? || r.Corrupted?
  {
    exists k: nat :: k < cnt && StoppedAt(w, r, d, user, n, k)
  }

  lemma NothingGrown(w: World, d: nat, user: bool, n: nat)
    ensures Grows(w, w, d, user, n, 0)
  {
  }

  // ----- how many frames and page tables a call needs -----

  /** Frames of a pool that paddr_get can still hand out. */
  function Free(p: Pool): nat {
    if |p.used| <= p.size then p.size - |p.used| else 0
  }

  lemma RangeSize(i: nat, cnt: nat)
    ensures |Range(i, cnt)| == cnt
  {
  }

  lemma SubsetSize(a: set<nat>, b: set<nat>)
    requires a <= b
    ensures |a| <= |b| && (|a| == |b| <==> a == b)
  {
    assert b == a + (b - a);
    if |b - a| == 0 {
      assert b - a == {};
    }
  }

  lemma NoneLeft(p: Pool)
    requires forall i | i in p.used :: i < p.size
    ensures |p.used| <= p.size && (Exhausted(p) <==> Free(p) == 0)
  {
    var all := Range(0, p.size);
    RangeSize(0, p.size);
    SubsetSize(p.used, all);
    assert Exhausted(p) <==> all <= p.used;
  }

  lemma PoolsCount(w: World)
    requires WInv(w)
    ensures Exhausted(w.kpool) <==> Free(w.kpool) == 0
    ensures Exhausted(w.upool) <==> Free(w.upool) == 0
  {
    NoneLeft(w.kpool);
    NoneLeft(w.upool);
  }

  lemma TakeCounts(p: Pool, f: nat)
    requires Covers(p, f) && !Holds(p, f) && forall i | i in p.used :: i < p.size
    ensures Free(p) > 0 && Free(Take(p, f)) == Free(p) - 1
  {
    NoneLeft(p);
    assert !Exhausted(p) by { assert f - p.base < p.size; }
  }

  /** The directory entries of pages n .. n + cnt that have no page table yet. */
  ghost function MissingTables(w: World, d: nat, n: nat, cnt: nat): set<nat> {
    set m: nat | n <= m < n + cnt && !Present(Rd(w.mem, Slot(d, m / ENTRIES))) :: m / ENTRIES
  }

  /** Page tables that mapping these pages will allocate. Kernel pages have theirs. */
  ghost function TablesNeeded(w: World, d: nat, user: bool, n: nat, cnt: nat): nat {
    if user then |MissingTables(w, d, n, cnt)| else 0
  }

  /** What mapping one page takes from the pools, and the one directory entry it may fill. */
  ghost predicate Spends(w: World, w': World, d: nat, user: bool, n: nat)
    requires Free(Physical(w, user)) > 0
  {
    && Free(Physical(w', user)) == Free(Physical(w, user)) - 1
    && (user ==>
          && Free(w.kpool) >= TablesNeeded(w, d, true, n, 1)
          && Free(w'.kpool) == Free(w.kpool) - TablesNeeded(w, d, true, n, 1)
          && forall i | 1 <= i <= 767 ::
               Present(Rd(w'.mem, Slot(d, i))) <==> Present(Rd(w.mem, Slot(d, i))) || i == n / ENTRIES)
    && (!user ==> w'.upool == w.upool)
  }

  lemma OneTable(w: World, d: nat, n: nat)
    ensures MissingTables(w, d, n, 1) == if Present(Rd(w.mem, Slot(d, n / ENTRIES))) then {} else {n / ENTRIES}
  {
  }

  lemma KernelSpends(w: World, d: nat, n: nat)
    requires WInv(w) && Active(w, d) && Holds(w.kvirt, n) && MapPage(w, d, false, n).Mapped?
    ensures Free(w.kpool) > 0 && Spends(w, MapPage(w, d, false, n).w, d, false, n)
  {
    hide Halves, Ledger, Accounted, Zeroed, Free;
    KernelIndex(w, d, n);
    GrabsFree(w, false);
    TakeCounts(w.kpool, Grab(w.kpool).value);
  }

  lemma UserSpends(w: World, d: nat, n: nat)
    requires WInv(w) && d in w.dirs && Holds(w.uvirt[d], n) && MapPage(w, d, true, n).Mapped?
    ensures Free(w.upool) > 0 && Spends(w, MapPage(w, d, true, n).w, d, true, n)
  {
    hide Halves, Ledger, Zeroed, Free, Cleared, Accounted, Grab;
    GrabsFree(w, true);
    GrabsFree(w, false);
    UserIndex(w, d, n);
    PageNumber(n);
    OneTable(w, d, n);
    TakeCounts(w.upool, Grab(w.upool).value);
    if Present(Pde(w.mem, d, n * PG_SIZE)) {
      UserTableIs(w, d, n);
    } else {
      var t := Grab(w.kpool).value;
      TakeCounts(w.kpool, t);
      DirectoryIsOwned(w, d, t);
      NewTableReads(w.mem, d, n * PG_SIZE, t, Grab(w.upool).value);
    }
  }

  lemma DirectoryIsOwned(w: World, d: nat, t: nat)
    requires WInv(w) && d in w.dirs && t !in w.own
    ensures t != d
  {
  }

  lemma NoMoreMissing(w: World, d: nat, n: nat, a: nat, b: nat)
    requires a <= b
    ensures |MissingTables(w, d, n, a)| <= |MissingTables(w, d, n, b)| && MissingTables(w, d, n, 0) == {}
  {
    SubsetSize(MissingTables(w, d, n, a), MissingTables(w, d, n, b));
  }

  lemma MissingStep(w: World, w1: World, d: nat, n: nat, cnt: nat, i: nat)
    requires cnt > 0 && forall m: nat | n <= m < n + cnt :: 1 <= m / ENTRIES <= 767
    requires forall j | 1 <= j <= 767 ::
               Present(Rd(w1.mem, Slot(d, j))) <==> Present(Rd(w.mem, Slot(d, j))) || j == n / ENTRIES
    ensures i in MissingTables(w, d, n, cnt)
            <==> i in MissingTables(w1, d, n + 1, cnt - 1) || (i == n / ENTRIES && !Present(Rd(w.mem, Slot(d, i))))
    ensures n / ENTRIES !in MissingTables(w1, d, n + 1, cnt - 1)
  {
    hide Present;
    if i in MissingTables(w, d, n, cnt) {
      var m: nat :| n <= m < n + cnt && !Present(Rd(w.mem, Slot(d, m / ENTRIES))) && i == m / ENTRIES;
      assert 1 <= m / ENTRIES <= 767;
    }
    if i in MissingTables(w1, d, n + 1, cnt - 1) {
      var m: nat :| n + 1 <= m < n + cnt && !Present(Rd(w1.mem, Slot(d, m / ENTRIES))) && i == m / ENTRIES;
      assert 1 <= m / ENTRIES <= 767;
    }
  }

  /** After the first page, the tables that the others need are those that are still missing. */
  lemma FirstPageSpent(w: World, w1: World, d: nat, user: bool, n: nat, cnt: nat)
    requires cnt > 0 && Free(Physical(w, user)) > 0 && Spends(w, w1, d, user, n)
    requires user ==> forall m: nat | n <= m < n + cnt :: 1 <= m / ENTRIES <= 767
    ensures TablesNeeded(w, d, user, n, cnt)
            == TablesNeeded(w, d, user, n, 1) + TablesNeeded(w1, d, user, n + 1, cnt - 1)
  {
    hide MissingTables, Free, Present;
    if user {
      OneTable(w, d, n);
      var all, one, rest := MissingTables(w, d, n, cnt), MissingTables(w, d, n, 1),
        MissingTables(w1, d, n + 1, cnt - 1);
      forall i: nat ensures i in all <==> i in one || i in rest {
        MissingStep(w, w1, d, n, cnt, i);
      }
      MissingStep(w, w1, d, n, cnt, n / ENTRIES);
      assert all == one + rest && one * rest == {};
    }
  }

  /** Every page, and every page table on the way, can have a frame. */
  ghost predicate Suffices(w: World, d: nat, user: bool, n: nat, cnt: nat) {
    cnt <= Free(Physical(w, user)) && TablesNeeded(w, d, user, n, cnt) <= Free(w.kpool)
  }

  /** A table is needed, for a page that can have a frame itself, when no frame is left for it. */
  ghost predicate TableRunsOut(w: World, d: nat, user: bool, n: nat, cnt: nat) {
    TablesNeeded(w, d, user, n, if cnt <= Free(Physical(w, user)) then cnt else Free(Physical(w, user))) > Free(w.kpool)
  }

  lemma UnmappedIndex(w: World, d: nat, user: bool, n: nat, cnt: nat)
    requires WInv(w) && (user ==> d in w.dirs) && Unmapped(w, d, user, n, cnt)
    ensures user ==> forall m: nat | n <= m < n + cnt :: 1 <= m / ENTRIES <= 767
  {
    hide WInv, Has;
    VirtualPool(w, d, user);
    if user {
      forall m: nat | n <= m < n + cnt ensures 1 <= m / ENTRIES <= 767 {
        assert Holds(Virtual(w, d, user), m);
        UserIndex(w, d, m);
      }
    }
  }

  /** The counts before and after one page, in terms of the two predicates. */
  lemma SpentDecides(w: World, w1: World, d: nat, user: bool, n: nat, cnt: nat)
    requires cnt > 0 && Free(Physical(w, user)) > 0 && Spends(w, w1, d, user, n)
    requires user ==> forall m: nat | n <= m < n + cnt :: 1 <= m / ENTRIES <= 767
    ensures Suffices(w, d, user, n, cnt) <==> Suffices(w1, d, user, n + 1, cnt - 1)
    ensures TableRunsOut(w, d, user, n, cnt) <==> TableRunsOut(w1, d, user, n + 1, cnt - 1)
  {
    hide Free, MissingTables;
    FirstPageSpent(w, w1, d, user, n, cnt);
    var f := Free(Physical(w, user));
    FirstPageSpent(w, w1, d, user, n, if cnt <= f then cnt else f);
  }

  lemma PageSpends(w: World, d: nat, user: bool, n: nat)
    requires WInv(w) && Active(w, d) && (user ==> d in w.dirs) && Holds(Virtual(w, d, user), n)
             && MapPage(w, d, user, n).Mapped?
    ensures Free(Physical(w, user)) > 0 && Spends(w, MapPage(w, d, user, n).w, d, user, n)
  {
    hide WInv, MapPage, Spends;
    VirtualPool(w, d, user);
    if user {
      UserSpends(w, d, n);
    } else {
      KernelSpends(w, d, n);
    }
  }

  /** Where the loop stops at its first page. */
  lemma FirstPageStops(w: World, d: nat, user: bool, n: nat, cnt: nat)
    requires WInv(w) && Active(w, d) && (user ==> d in w.dirs) && cnt > 0
    requires Exhausted(Physical(w, user)) || TableFails(w, d, user, n)
    ensures !Suffices(w, d, user, n, cnt)
    ensures TableRunsOut(w, d, user, n, cnt) <==> !Exhausted(Physical(w, user))
    ensures Exhausted(Physical(w, user)) <==> Free(Physical(w, user)) == 0
  {
    hide WInv, Free, MissingTables;
    PoolsCount(w);
    PageNumber(n);
    OneTable(w, d, n);
    NoMoreMissing(w, d, n, 1, cnt);
    if Free(Physical(w, user)) > 0 {
      NoMoreMissing(w, d, n, 1, Free(Physical(w, user)));
    }
  }

  /** The loop of malloc_page. It maps all pages iff there are frames for them and for the missing page tables; it
      takes frame 0 for a table iff a table is needed when no frame is left for it; otherwise it stops, exactly when
      the pool is exhausted, with that many pages mapped. The "pte repeat" assertion never fires, and the invariant
      stays. */
  lemma {:induction false} MapPagesKeeps(w: World, d: nat, user: bool, n: nat, cnt: nat)
    requires WInv(w) && Active(w, d) && (user ==> d in w.dirs) && Unmapped(w, d, user, n, cnt)
    ensures match MapPages(w, d, user, n, cnt)
            case Done(w', m) => WInv(w') && Grows(w, w', d, user, n, cnt) && m == n + cnt
            case Panicked => false
            case r => Stopped(w, r, d, user, n, cnt) && (r.Corrupted? ==> user)
    ensures LowestFirst(w, MapPages(w, d, user, n, cnt).w, d, user)
    ensures var r := MapPages(w, d, user, n, cnt);
            && (r.Done? <==> Suffices(w, d, user, n, cnt))
            && (r.Corrupted? <==> TableRunsOut(w, d, user, n, cnt))
            && (r.Failed? ==> StoppedAt(w, r, d, user, n, Free(Physical(w, user))))
    decreases cnt
  {
    hide WInv, Grows, Has, Exhausted, MapPage, Free, MissingTables, TableRunsOut, Suffices, Spends, LowestFirst;
    NothingGrown(w, d, user, n);
    NothingTaken(w, d, user);
    if cnt == 0 {
      NothingNeeded(w, d, user, n);
    } else {
      assert Holds(Virtual(w, d, user), n) && !Has(w.own, PageOwner(user, d, n));
      PageMaps(w, d, user, n);
      if MapPage(w, d, user, n).Mapped? {
        var w1 := MapPage(w, d, user, n).w;
        OneMapped(w, w1, d, user, n, cnt);
        GrowsDirs(w, w1, d, user, n, 1);
        PageSpends(w, d, user, n);
        UnmappedIndex(w, d, user, n, cnt);
        SpentDecides(w, w1, d, user, n, cnt);
        SpentFree(w, w1, d, user, n);
        MapPagesKeeps(w1, d, user, n + 1, cnt - 1);
        MapRest(w, w1, d, user, n, cnt, Free(Physical(w1, user)));
        RestLowest(w, w1, MapPages(w1, d, user, n + 1, cnt - 1), d, user, n, cnt - 1);
      } else {
        FirstPageStops(w, d, user, n, cnt);
        assert StoppedAt(w, MapPages(w, d, user, n, cnt), d, user, n, 0);
      }
    }
  }

  lemma RestLowest(w: World, w1: World, r: Outcome, d: nat, user: bool, n: nat, cnt: nat)
    requires Grows(w, w1, d, user, n, 1) && LowestFirst(w, w1, d, user)
    requires !r.Panicked? && LowestFirst(w1, r.w, d, user)
    requires if r.Done? then Grows(w1, r.w, d, user, n + 1, cnt) else Stopped(w1, r, d, user, n + 1, cnt)
    ensures LowestFirst(w, r.w, d, user)
  {
    hide Grows, LowestFirst, WInv, Exhausted;
    if r.Done? {
      LowestChains(w, w1, r.w, d, user, n, cnt);
    } else {
      var k: nat :| k < cnt && StoppedAt(w1, r, d, user, n + 1, k);
      LowestChains(w, w1, r.w, d, user, n, k);
    }
  }

  lemma SpentFree(w: World, w1: World, d: nat, user: bool, n: nat)
    requires Free(Physical(w, user)) > 0 && Spends(w, w1, d, user, n)
    ensures Free(Physical(w1, user)) == Free(Physical(w, user)) - 1
  {
    hide Free;
  }

  lemma NothingNeeded(w: World, d: nat, user: bool, n: nat)
    ensures Suffices(w, d, user, n, 0) && !TableRunsOut(w, d, user, n, 0)
  {
    hide Free;
    NoMoreMissing(w, d, n, 0, 0);
  }

  /** The induction step of the loop, in what is handed out. */
  lemma MapRest(w: World, w1: World, d: nat, user: bool, n: nat, cnt: nat, k: nat)
    requires cnt > 0 && MapPage(w, d, user, n) == Mapped(w1) && Grows(w, w1, d, user, n, 1)
    requires match MapPages(w1, d, user, n + 1, cnt - 1)
             case Done(w', m) => WInv(w') && Grows(w1, w', d, user, n + 1, cnt - 1) && m == n + cnt
             case Panicked => false
             case r => Stopped(w1, r, d, user, n + 1, cnt - 1)
    ensures MapPages(w, d, user, n, cnt) == MapPages(w1, d, user, n + 1, cnt - 1)
    ensures var r := MapPages(w, d, user, n, cnt);
            && (r.Done? ==> Grows(w, r.w, d, user, n, cnt))
            && (!r.Done? ==> Stopped(w, r, d, user, n, cnt))
            && (!r.Done? && StoppedAt(w1, r, d, user, n + 1, k) ==> StoppedAt(w, r, d, user, n, k + 1))
  {
    hide WInv, Grows, Exhausted, MapPage;
    var r := MapPages(w1, d, user, n + 1, cnt - 1);
    if r.Done? {
      GrowsChains(w, w1, r.w, d, user, n, cnt - 1);
    } else {
      if StoppedAt(w1, r, d, user, n + 1, k) {
        GrowsChains(w, w1, r.w, d, user, n, k);
      }
      var j: nat :| j < cnt - 1 && StoppedAt(w1, r, d, user, n + 1, j);
      GrowsChains(w, w1, r.w, d, user, n, j);
      assert StoppedAt(w, r, d, user, n, j + 1);
    }
  }

  lemma GrowsDirs(w: World, w': World, d: nat, user: bool, n: nat, k: nat)
    requires Grows(w, w', d, user, n, k)
    ensures w'.dirs == w.dirs && w'.kvirt == w.kvirt && w'.uvirt == w.uvirt
  {
  }

  predicate Room(p: Pool, n: nat, cnt: nat) {
    Covers(p, n) && n + cnt <= p.base + p.size && forall m: nat | n <= m < n + cnt :: !Holds(p, m)
  }

  /** Exactly the pages n .. n + cnt are reserved in q besides those reserved in p. */
  ghost predicate ReservesOnly(p: Pool, q: Pool, n: nat, cnt: nat) {
    forall m: nat | m >= p.base :: Holds(q, m) <==> Holds(p, m) || n <= m < n + cnt
  }

  /** vaddr_get reserves exactly cnt contiguous pages that were free, the lowest such run, and fails iff there is
      none. */
  lemma VaddrGetIsFirstFit(p: Pool, cnt: nat)
    requires cnt > 0
    ensures match VaddrGet(p, cnt)
            case None => forall n: nat :: !Room(p, n, cnt)
            case Some(n) =>
              && Room(p, n, cnt) && (forall m: nat | m < n :: !Room(p, m, cnt))
              && ReservesOnly(p, Reserved(p, n - p.base, cnt), n, cnt)
  {
    hide ReservesOnly;
    B.FirstFitIsLeast(p.used, p.size, 0, cnt, 0);
    forall n: nat | p.base <= n && n + cnt <= p.base + p.size
      ensures Room(p, n, cnt) <==> B.RunAt(p.used, n - p.base, 0, cnt) {
      if B.RunAt(p.used, n - p.base, 0, cnt) {
        forall m: nat | n <= m < n + cnt ensures !Holds(p, m) {
          assert n - p.base <= m - p.base < n - p.base + cnt;
        }
      }
      if Room(p, n, cnt) {
        forall i | n - p.base <= i < n - p.base + cnt ensures i !in p.used {
          assert !Holds(p, p.base + i);
        }
      }
    }
    if VaddrGet(p, cnt).Some? {
      ReservedHolds(p, VaddrGet(p, cnt).value, cnt);
    }
  }

  lemma ReservedHolds(p: Pool, n: nat, cnt: nat)
    requires n >= p.base
    ensures ReservesOnly(p, Reserved(p, n - p.base, cnt), n, cnt)
  {
    var r := Range(n - p.base, cnt);
    assert Reserved(p, n - p.base, cnt).used == p.used + r;
    forall m: nat | m >= p.base ensures Holds(Reserved(p, n - p.base, cnt), m) <==> Holds(p, m) || n <= m < n + cnt {
      assert m - p.base in r <==> n - p.base <= m - p.base < n - p.base + cnt;
    }
  }

  lemma ReserveLedger(w: World, d: nat, user: bool, i: nat, cnt: nat)
    requires Layout(w) && Ledger(w) && (user ==> d in w.dirs) && i + cnt <= Virtual(w, d, user).size
    ensures Ledger(WithVirtual(w, d, user, Reserved(Virtual(w, d, user), i, cnt)))
  {
    var w' := WithVirtual(w, d, user, Reserved(Virtual(w, d, user), i, cnt));
    assert Grown(w, w');
    forall f | f in w'.own ensures OwnerOk(w', f) {
      OwnerKept(w, w', f);
    }
  }

  lemma ReserveKeeps(w: World, d: nat, user: bool, i: nat, cnt: nat)
    requires WInv(w) && Active(w, d) && (user ==> d in w.dirs) && i + cnt <= Virtual(w, d, user).size
    ensures WInv(WithVirtual(w, d, user, Reserved(Virtual(w, d, user), i, cnt)))
  {
    hide Ledger, Halves, Accounted;
    ReserveLedger(w, d, user, i, cnt);
    ReserveTables(w, d, user, i, cnt);
  }

  lemma ReserveTables(w: World, d: nat, user: bool, i: nat, cnt: nat)
    requires Halves(w) && Accounted(w)
    ensures var w' := WithVirtual(w, d, user, Reserved(Virtual(w, d, user), i, cnt)); Halves(w') && Accounted(w')
  {
  }

  /** A page whose reservation bit is clear has no frame. */
  lemma FreeMeansUnmapped(w: World, d: nat, user: bool, n: nat)
    requires WInv(w) && (user ==> d in w.dirs) && !Holds(Virtual(w, d, user), n)
    ensures !Has(w.own, PageOwner(user, d, n))
  {
    hide Halves, Accounted, Zeroed, Booked;
    forall f | f in w.own ensures w.own[f] != PageOwner(user, d, n) {
      assert OwnerOk(w, f);
    }
  }

  /** malloc_page in full, decided by the state before the call. It succeeds iff there is a free run of virtual pages
      and there are frames for the pages and for the page tables that are missing; then cnt pages in a row that were
      free are mapped to frames that were free, and no other page changed. It goes on without a page table iff a table
      is needed when the kernel pool has no frame left. It returns NULL otherwise: without a free run nothing has
      changed; with one, the reservation stays, and as many pages as the pool had frames for are mapped. */
  lemma MallocPageKeeps(w: World, d: nat, user: bool, cnt: nat)
    requires WInv(w) && Active(w, d)
    ensures var p := Virtual(w, d, user);
            match MallocPage(w, d, user, cnt)
            case Panicked => true
            case Done(w', n) =>
              && VaddrGet(p, cnt) == Some(n) && (user ==> d in w.dirs)
              && WInv(w') && Grows(WithVirtual(w, d, user, Reserved(p, n - p.base, cnt)), w', d, user, n, cnt)
              && LowestFirst(w, w', d, user)
            case r =>
              || (VaddrGet(p, cnt).None? && r == Failed(w))
              || (VaddrGet(p, cnt).Some? && (user ==> d in w.dirs) && (r.Corrupted? ==> user)
                  && LowestFirst(w, r.w, d, user)
                  && var n := VaddrGet(p, cnt).value;
                     var w1 := WithVirtual(w, d, user, Reserved(p, n - p.base, cnt));
                     Stopped(w1, r, d, user, n, cnt)
                     && (r.Failed? ==> StoppedAt(w1, r, d, user, n, Free(Physical(w, user)))))
    ensures var r, n := MallocPage(w, d, user, cnt), VaddrGet(Virtual(w, d, user), cnt);
            && (r.Panicked? <==> !(0 < cnt < MALLOC_LIMIT))
            && (r.Done? <==> 0 < cnt < MALLOC_LIMIT && n.Some? && Suffices(w, d, user, n.value, cnt))
            && (r.Corrupted? <==> 0 < cnt < MALLOC_LIMIT && n.Some? && TableRunsOut(w, d, user, n.value, cnt))
  {
    hide WInv, Grows, Has, Exhausted, MapPage, MapPages, Free, MissingTables, LowestFirst;
    if 0 < cnt < MALLOC_LIMIT {
      var p := Virtual(w, d, user);
      VaddrGetIsFirstFit(p, cnt);
      if VaddrGet(p, cnt).Some? {
        var n := VaddrGet(p, cnt).value;
        if user {
          UserPoolIsReal(w, d);
        }
        var w1 := WithVirtual(w, d, user, Reserved(p, n - p.base, cnt));
        ReservesUnmapped(w, d, user, n, cnt);
        ReservesNoFrame(w, d, user, n, cnt);
        MapPagesKeeps(w1, d, user, n, cnt);
        LowestBefore(w, w1, MapPages(w1, d, user, n, cnt).w, d, user);
      }
    }
  }

  lemma LowestBefore(w: World, w1: World, w2: World, d: nat, user: bool)
    requires LowestFirst(w1, w2, d, user) && w1.kpool == w.kpool && w1.upool == w.upool && w1.own == w.own
    ensures LowestFirst(w, w2, d, user)
  {
  }

  /** The reservation makes cnt unmapped pages the caller's. */
  lemma ReservesUnmapped(w: World, d: nat, user: bool, n: nat, cnt: nat)
    requires WInv(w) && Active(w, d) && (user ==> d in w.dirs) && cnt > 0
    requires VaddrGet(Virtual(w, d, user), cnt) == Some(n)
    ensures n >= Virtual(w, d, user).base
    ensures var p := Virtual(w, d, user);
            var w1 := WithVirtual(w, d, user, Reserved(p, n - p.base, cnt));
            WInv(w1) && Active(w1, d) && w1.dirs == w.dirs && Unmapped(w1, d, user, n, cnt)
  {
    hide WInv, Has;
    var p := Virtual(w, d, user);
    VaddrGetIsFirstFit(p, cnt);
    var w1 := WithVirtual(w, d, user, Reserved(p, n - p.base, cnt));
    ReserveKeeps(w, d, user, n - p.base, cnt);
    VirtualPool(w, d, user);
    VirtualPool(w1, d, user);
    forall m: nat | n <= m < n + cnt ensures Holds(Virtual(w1, d, user), m) && !Has(w1.own, PageOwner(user, d, m)) {
      FreeMeansUnmapped(w, d, user, m);
    }
  }

  /** And takes no frame and no page table. */
  lemma ReservesNoFrame(w: World, d: nat, user: bool, n: nat, cnt: nat)
    requires n >= Virtual(w, d, user).base
    ensures var p := Virtual(w, d, user);
            var w1 := WithVirtual(w, d, user, Reserved(p, n - p.base, cnt));
            && Physical(w1, user) == Physical(w, user)
            && (Suffices(w1, d, user, n, cnt) <==> Suffices(w, d, user, n, cnt))
            && (TableRunsOut(w1, d, user, n, cnt) <==> TableRunsOut(w, d, user, n, cnt))
  {
    var p := Virtual(w, d, user);
    var w1 := WithVirtual(w, d, user, Reserved(p, n - p.base, cnt));
    assert forall k: nat :: MissingTables(w1, d, n, k) == MissingTables(w, d, n, k);
  }

  lemma UserPoolIsReal(w: World, d: nat)
    requires WInv(w) && Virtual(w, d, true).size > 0
    ensures d in w.dirs
  {
  }
}

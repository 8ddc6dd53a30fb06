/** Runs of the allocator from the loader's page tables on: malloc_page, target_vaddr_malloc, page_dir_create, and
    stores through any translated address that is not part of a page directory. */
module AddressSpaceRuns {
  import opened Options
  import opened Paging
  import opened AddressSpaces
  import opened PageAllocation
  import opened Translations
  import L = PoolLayout

  // ----- target_vaddr_malloc -----

  predicate RightKind(d: nat, user: bool) {
    (d != KDIR) == user
  }

  /** One page at a given address. The reservation bit is set whether or not it was set before. None: the page lies
      outside the caller's pool, and the bit that is set is none of its bitmap's. */
  function TargetVaddrMalloc(w: World, d: nat, user: bool, n: nat): Option<Outcome> {
    var p := Virtual(w, d, user);
    if !RightKind(d, user) then Some(Panicked)
    else if !Covers(p, n) then None
    else
      var w1 := WithVirtual(w, d, user, Reserved(p, n - p.base, 1));
      match MapPage(w1, d, user, n)
      case Mapped(w2) => Some(Done(w2, n))
      case NoFrame => Some(Failed(w1))
      case Repeat => Some(Panicked)
      case NullTable(m) => Some(Corrupted(w1, m))
  }

  /** Decided by the state before the call. It leaves the bitmap iff the thread is of the right kind and the page
      outside its pool. Otherwise it panics iff the thread is of the wrong kind, or a frame is left and the page has
      one already; it returns NULL iff the kind is right and no frame is left; it goes on without a page table iff
      there is a frame for the page but none for the table it lacks; otherwise the page gets a frame that was free. */
  lemma TargetVaddrMallocKeeps(w: World, d: nat, user: bool, n: nat)
    requires WInv(w) && Active(w, d)
    ensures TargetVaddrMalloc(w, d, user, n).None? <==> RightKind(d, user) && !Covers(Virtual(w, d, user), n)
    ensures RightKind(d, user) && Covers(Virtual(w, d, user), n) ==>
              var p := Virtual(w, d, user);
              var w1 := WithVirtual(w, d, user, Reserved(p, n - p.base, 1));
              match TargetVaddrMalloc(w, d, user, n).value
              case Panicked => true
              case Done(w', m) =>
                && m == n && WInv(w') && Grows(w1, w', d, user, n, 1)
                && !Has(w.own, PageOwner(user, d, n)) && LowestFirst(w, w', d, user)
              case r => r.w == w1 && WInv(w1)
    ensures var o, left := TargetVaddrMalloc(w, d, user, n), !Exhausted(Physical(w, user));
            o.Some? ==>
              && (o.value.Panicked? <==> !RightKind(d, user) || (left && Has(w.own, PageOwner(user, d, n))))
              && (o.value.Failed? <==> RightKind(d, user) && !left)
              && (o.value.Corrupted? <==> RightKind(d, user) && left && TableFails(w, d, user, n))
  {
    hide WInv, Grows, Has, Exhausted, MapPage, Pde, LowestFirst;
    if RightKind(d, user) && Covers(Virtual(w, d, user), n) {
      var p := Virtual(w, d, user);
      var w1 := WithVirtual(w, d, user, Reserved(p, n - p.base, 1));
      ReserveKeeps(w, d, user, n - p.base, 1);
      VirtualPool(w, d, user);
      VirtualPool(w1, d, user);
      assert n - p.base in Range(n - p.base, 1);
      PageMaps(w1, d, user, n);
      if MapPage(w1, d, user, n).Mapped? {
        LowestBefore(w, w1, MapPage(w1, d, user, n).w, d, user);
      }
    }
  }

  // ----- page_dir_create -----

  /** The copy of entries 768..1023 through the active directory's own window, then the new directory's self entry. */
  function CopiedHalf(m: Mem, d: nat, f: nat): Mem {
    (m + map i: nat | 768 <= i < ENTRIES :: Slot(f, i) := Rd(m, Slot(d, i)))[Slot(f, SELF) := Entry(f)]
  }

  function NewDirectory(w: World, d: nat, f: nat): World {
    w.(mem := CopiedHalf(w.mem, d, f), dirs := w.dirs + {f}, uvirt := w.uvirt[f := Pool(USER_PAGE, USER_PAGES, {})])
  }

  /** Panicked would be a page fault in addr_v2p. */
  function PageDirCreate(w: World, d: nat): Outcome {
    match MallocPage(w, d, false, 1)
    case Done(w1, n) => (match AddrV2P(w1.mem, d, n * PG_SIZE)
                         case None => Panicked
                         case Some(pa) => Done(NewDirectory(w1, d, pa / PG_SIZE), n))
    case r => r
  }

  lemma CopiedReads(m: Mem, d: nat, f: nat, s: Slot)
    ensures Rd(CopiedHalf(m, d, f), s) ==
              if s == Slot(f, SELF) then Entry(f)
              else if s.frame == f && 768 <= s.idx < ENTRIES then Rd(m, Slot(d, s.idx))
              else Rd(m, s)
  {
  }

  /** Frame f is a kernel page that is all zero, and no directory. */
  ghost predicate Blank(w: World, f: nat) {
    && f in w.own && w.own[f].KernelPage? && f !in w.dirs
    && forall j :: Rd(w.mem, Slot(f, j)) == 0
  }

  /** What the copy does to reads of the memory. */
  ghost predicate HalfCopied(m: Mem, m': Mem, d: nat, f: nat) {
    forall s: Slot :: Rd(m', s) ==
      if s == Slot(f, SELF) then Entry(f)
      else if s.frame == f && 768 <= s.idx < ENTRIES then Rd(m, Slot(d, s.idx))
      else Rd(m, s)
  }

  lemma CopyCopies(m: Mem, d: nat, f: nat)
    ensures HalfCopied(m, CopiedHalf(m, d, f), d, f)
  {
    forall s: Slot ensures Rd(CopiedHalf(m, d, f), s) ==
      if s == Slot(f, SELF) then Entry(f)
      else if s.frame == f && 768 <= s.idx < ENTRIES then Rd(m, Slot(d, s.idx))
      else Rd(m, s) {
      CopiedReads(m, d, f, s);
    }
  }

  lemma NewHalves(w: World, w': World, d: nat, f: nat)
    requires Halves(w) && Active(w, d) && f >= 512 && w'.dirs == w.dirs + {f} && f !in w.dirs
    requires HalfCopied(w.mem, w'.mem, d, f)
    ensures Halves(w')
  {
    forall e | e == KDIR || e in w'.dirs ensures SelfMapped(w'.mem, e) {
      if e != f {
        assert SelfMapped(w.mem, e);
      }
    }
    forall e, i | (e == KDIR || e in w'.dirs) && 768 <= i <= 1022 ensures Rd(w'.mem, Slot(e, i)) == Entry(KTable(i)) {
      assert Rd(w.mem, Slot(if e == f then d else e, i)) == Entry(KTable(i));
    }
  }

  lemma NewLedger(w: World, w': World, d: nat, f: nat)
    requires Layout(w) && Booked(w) && Ledger(w) && Blank(w, f) && w'.uvirt.Keys == w'.dirs
    requires HalfCopied(w.mem, w'.mem, d, f) && w' == NewDirectory(w, d, f)
    ensures Ledger(w')
  {
    hide CopiedHalf, OwnerOk;
    assert Grown(w, w');
    forall g | g in w'.own ensures OwnerOk(w', g) {
      OwnerKept(w, w', g);
    }
  }

  lemma NewAccounted(w: World, w': World, d: nat, f: nat)
    requires Accounted(w) && w'.dirs == w.dirs + {f} && w'.own == w.own
    requires f in w.own && w.own[f].KernelPage? && f >= 512
    requires forall s: Slot | s.frame != f :: Rd(w'.mem, s) == Rd(w.mem, s)
    requires forall i | 0 <= i < 768 :: Rd(w'.mem, Slot(f, i)) == 0
    ensures Accounted(w')
  {
    hide Entry;
    assert forall e, i | e in w'.dirs && 1 <= i <= 767 && Present(Rd(w'.mem, Slot(e, i))) :: e != f;
  }

  lemma NewRest(w: World, w': World, d: nat, f: nat)
    requires Layout(w) && Booked(w) && Zeroed(w) && Blank(w, f) && w' == NewDirectory(w, d, f)
    requires HalfCopied(w.mem, w'.mem, d, f)
    ensures Layout(w') && Booked(w') && Zeroed(w')
  {
    hide CopiedHalf, Entry;
  }

  /** A blank page becomes a directory that agrees with all others on the kernel half and maps nothing else. */
  lemma NewDirectoryKeeps(w: World, d: nat, f: nat)
    requires WInv(w) && Active(w, d) && Blank(w, f)
    ensures WInv(NewDirectory(w, d, f))
  {
    hide Halves, Ledger, Accounted, Zeroed, CopiedHalf;
    OwnedAbove(w);
    var w' := NewDirectory(w, d, f);
    CopyCopies(w.mem, d, f);
    NewRest(w, w', d, f);
    NewHalves(w, w', d, f);
    NewLedger(w, w', d, f);
    assert forall s: Slot | s.frame != f :: Rd(w'.mem, s) == Rd(w.mem, s);
    assert forall i | 0 <= i < 768 :: Rd(w'.mem, Slot(f, i)) == 0;
    NewAccounted(w, w', d, f);
  }

  lemma FreshPageBlank(w: World, w1: World, d: nat, n: nat)
    requires WInv(w) && Active(w, d) && Holds(w.kvirt, n) && MapPage(w, d, false, n) == Mapped(w1)
    ensures Grab(w.kpool).Some?
    ensures var f := Grab(w.kpool).value;
            && Blank(w1, f) && f !in w.own && w1.own == w.own[f := KernelPage(n)]
            && Covers(w.kpool, f) && forall g | w.kpool.base <= g < f :: Holds(w.kpool, g)
  {
    GrabIsFree(w.kpool);
    GrabsFree(w, false);
    hide Ledger, Accounted;
    var f := Grab(w.kpool).value;
    OwnedAbove(w);
    HeapPage(w, n);
    KernelBranch(w, d, n);
    PageNumber(n);
  }

  lemma GrowsExtends(w: World, w': World, d: nat, user: bool, n: nat, cnt: nat)
    requires Grows(w, w', d, user, n, cnt)
    ensures Extends(w, w')
  {
  }

  /** However malloc_page ends, no frame changed owner and no directory came or went. */
  lemma MallocSummary(w: World, d: nat, user: bool, cnt: nat)
    requires WInv(w) && Active(w, d)
    ensures match MallocPage(w, d, user, cnt)
            case Panicked => cnt == 0 || cnt >= MALLOC_LIMIT
            case r =>
              && WInv(r.w) && Extends(w, r.w) && r.w.dirs == w.dirs && (!user ==> r.w.uvirt == w.uvirt)
              && (r.Corrupted? ==> user)
  {
    hide WInv, MallocPage, Exhausted, Has;
    MallocPageKeeps(w, d, user, cnt);
  }

  lemma OneKernelPageDecides(w: World, d: nat)
    requires WInv(w) && Active(w, d)
    ensures MallocPage(w, d, false, 1).Done? <==> VaddrGet(w.kvirt, 1).Some? && Free(w.kpool) > 0
  {
    hide WInv, MallocPage, Grows, Exhausted, Free, VaddrGet;
    MallocPageKeeps(w, d, false, 1);
  }

  /** Frame f is free, and the lowest such frame of the kernel's pool. */
  ghost predicate FirstFree(w: World, f: nat) {
    f !in w.own && Covers(w.kpool, f) && forall g | w.kpool.base <= g < f :: Holds(w.kpool, g)
  }

  /** malloc_page(PF_KERNEL, 1), unfolded: one blank frame. */
  lemma OneKernelPage(w: World, d: nat, w1: World, n: nat)
    requires WInv(w) && Active(w, d) && MallocPage(w, d, false, 1) == Done(w1, n)
    ensures WInv(w1) && Extends(w, w1) && w1.dirs == w.dirs && 786688 <= n < 1023 * ENTRIES
    ensures exists f: nat :: Blank(w1, f) && FirstFree(w, f) && w1.own == w.own[f := KernelPage(n)]
    ensures Free(w.kpool) > 0 && Free(w1.kpool) == Free(w.kpool) - 1 && w1.upool == w.upool
  {
    hide WInv, Grows, Blank, MapPage, Unmapped, Has, Free;
    var p := w.kvirt;
    MallocPageKeeps(w, d, false, 1);
    VaddrGetIsFirstFit(p, 1);
    var w0 := WithVirtual(w, d, false, Reserved(p, n - p.base, 1));
    VirtualPool(w, d, false);
    ReserveKeeps(w, d, false, n - p.base, 1);
    assert n - p.base in Range(n - p.base, 1);
    GrowsExtends(w0, w1, d, false, n, 1);
    GrowsDirs(w0, w1, d, false, n, 1);
    assert MapPages(w0, d, false, n, 1) == Done(w1, n + 1);
    assert MapPage(w0, d, false, n) == Mapped(w1);
    FreshPageBlank(w0, w1, d, n);
    PageSpends(w0, d, false, n);
    HeapRange(w, n);
  }

  lemma HeapRange(w: World, n: nat)
    requires WInv(w) && Covers(w.kvirt, n)
    ensures KHEAP_PAGE <= n < 1023 * ENTRIES
  {
  }

  lemma SelfMappedEverywhere(w: World, d: nat)
    requires WInv(w) && Active(w, d)
    ensures SelfMapped(w.mem, d)
  {
  }

  /** addr_v2p returns the frame that the ledger gives the page. */
  lemma AddrOfHeapPage(w: World, d: nat, n: nat, f: nat)
    requires WInv(w) && Active(w, d) && KHEAP_PAGE <= n < 1023 * ENTRIES && f in w.own && w.own[f] == KernelPage(n)
    ensures AddrV2P(w.mem, d, n * PG_SIZE) == Some(f * PG_SIZE)
  {
    hide WInv, AddrV2P;
    var v := n * PG_SIZE;
    assert v / PG_SIZE == n && Off(v) == 0;
    PageOf(v);
    WalkIsLedger(w, d, v);
    SelfMappedEverywhere(w, d);
    AddrV2PAgrees(w.mem, d, v);
  }

  /** The one new directory is f; it has no page table of its own, and its process no page. */
  ghost predicate NewSpace(w: World, w': World, f: nat) {
    && w'.dirs == w.dirs + {f} && w'.uvirt == w.uvirt[f := Pool(USER_PAGE, USER_PAGES, {})]
    && forall i | 0 <= i <= 767 :: !Present(Rd(w'.mem, Slot(f, i)))
  }

  lemma NewDirectoryIsEmpty(w: World, d: nat, f: nat)
    requires Blank(w, f)
    ensures NewSpace(w, NewDirectory(w, d, f), f)
  {
    CopyCopies(w.mem, d, f);
    hide CopiedHalf;
  }

  /** A new directory is a frame that was free. page_dir_create succeeds iff a virtual page and a frame are left, and
      otherwise changes no directory. */
  lemma PageDirCreateKeeps(w: World, d: nat)
    requires WInv(w) && Active(w, d)
    ensures match PageDirCreate(w, d)
            case Done(w', n) =>
              && WInv(w') && Extends(w, w')
              && (exists f :: FirstFree(w, f) && NewSpace(w, w', f) && w'.own == w.own[f := KernelPage(n)])
              && Free(w'.kpool) == Free(w.kpool) - 1 && w'.upool == w.upool
            case Failed(w') => WInv(w') && Extends(w, w') && w'.dirs == w.dirs && w'.uvirt == w.uvirt
            case r => false
    ensures PageDirCreate(w, d).Done? <==> VaddrGet(w.kvirt, 1).Some? && Free(w.kpool) > 0
  {
    hide WInv, Grows, MapPage, MallocPage, AddrV2P, CopiedHalf, Exhausted, Free;
    MallocSummary(w, d, false, 1);
    OneKernelPageDecides(w, d);
    match MallocPage(w, d, false, 1)
    case Done(w1, n) =>
      OneKernelPage(w, d, w1, n);
      var f: nat :| Blank(w1, f) && FirstFree(w, f) && w1.own == w.own[f := KernelPage(n)];
      AddrOfHeapPage(w1, d, n, f);
      NewDirectoryKeeps(w1, d, f);
      NewDirectoryIsEmpty(w1, d, f);
      assert NewSpace(w, NewDirectory(w1, d, f), f);
      assert f * PG_SIZE / PG_SIZE == f;
      assert NewDirectory(w1, d, f).dirs == w.dirs + {f};
    case Failed(w1) =>
    case r =>
  }

  // ----- stores -----

  /** One 32-bit store; without a translation it is a page fault. */
  function Store(w: World, d: nat, v: nat, x: nat): Outcome {
    match Walk(w.mem, d, v)
    case None => Panicked
    case Some(pa) => Done(w.(mem := w.mem[WordAt(pa) := x]), v / PG_SIZE)
  }

  /** Addresses that stores may use: any but the recursive window, directory entry 0, and pages holding a directory. */
  predicate Storable(w: World, d: nat, v: nat) {
    && Tracked(v)
    && (Walk(w.mem, d, v).Some? ==> Walk(w.mem, d, v).value / PG_SIZE !in w.dirs)
  }

  predicate Plain(w: World, f: nat) {
    f < KDIR || (f in w.own && !w.own[f].Table? && f !in w.dirs)
  }

  lemma PlainLedger(w: World, w': World, s: Slot, x: nat)
    requires Layout(w) && Booked(w) && Ledger(w) && Accounted(w) && Plain(w, s.frame) && w' == w.(mem := w.mem[s := x])
    ensures Ledger(w')
  {
    OwnedAbove(w);
    forall g | g in w'.own ensures OwnerOk(w', g) {
      PlainOwnerOk(w, w', s, x, g);
    }
  }

  lemma PlainOwnerOk(w: World, w': World, s: Slot, x: nat, g: nat)
    requires w.uvirt.Keys == w.dirs && Ledger(w) && Accounted(w) && Plain(w, s.frame)
             && w' == w.(mem := w.mem[s := x]) && g in w.own
    requires (forall f | f in w.own :: f >= 512) && (forall e | e in w.dirs :: e >= 512)
    ensures OwnerOk(w', g)
  {
    hide Entry;
    assert OwnerOk(w, g);
    match w.own[g]
    case KernelPage(n) =>
    case UserPage(e, n) =>
      var t := FrameOf(Rd(w.mem, Slot(e, n / ENTRIES)));
      assert t in w.own && w.own[t] == Table(e, n / ENTRIES);
      assert s.frame != e && s.frame != t;
    case Table(e, i) =>
  }

  lemma PlainAccounted(w: World, w': World, s: Slot, x: nat)
    requires Layout(w) && Booked(w) && Accounted(w) && Plain(w, s.frame) && w' == w.(mem := w.mem[s := x])
    ensures Accounted(w')
  {
    OwnedAbove(w);
    hide Entry;
  }

  lemma PlainHalves(w: World, w': World, s: Slot, x: nat)
    requires Layout(w) && Booked(w) && Halves(w) && Plain(w, s.frame) && w' == w.(mem := w.mem[s := x])
    ensures Halves(w')
  {
    OwnedAbove(w);
    forall e | e == KDIR || e in w'.dirs ensures SelfMapped(w'.mem, e) {
      assert SelfMapped(w.mem, e);
    }
  }

  lemma PlainKeeps(w: World, s: Slot, x: nat)
    requires WInv(w) && Plain(w, s.frame)
    ensures WInv(w.(mem := w.mem[s := x]))
  {
    hide Halves, Ledger, Accounted;
    var w' := w.(mem := w.mem[s := x]);
    PlainHalves(w, w', s, x);
    PlainLedger(w, w', s, x);
    PlainAccounted(w, w', s, x);
  }

  /** Whatever is stored through a translated address, bar the pages that hold directories, every invariant stays. */
  lemma StoreKeeps(w: World, d: nat, v: nat, x: nat)
    requires WInv(w) && Active(w, d) && Storable(w, d, v)
    ensures Store(w, d, v, x).Panicked? <==> Walk(w.mem, d, v).None?
    ensures Store(w, d, v, x).Done? ==>
              var w', pa := Store(w, d, v, x).w, Walk(w.mem, d, v).value;
              && WInv(w') && Extends(w, w') && w' == w.(mem := w'.mem)
              && forall s: Slot :: Rd(w'.mem, s)
                   == if s.frame == pa / PG_SIZE && s.idx == pa % PG_SIZE / 4 then x else Rd(w.mem, s)
    ensures !Store(w, d, v, x).Failed? && !Store(w, d, v, x).Corrupted?
  {
    hide WInv, Walk, Pdi, Pti, Off;
    if Walk(w.mem, d, v).Some? {
      var s := WordAt(Walk(w.mem, d, v).value);
      if Low(v) {
        LowIsFixed(w, d, v);
        LowFrame(v);
      } else {
        if Pdi(v) < 768 {
          NoUserHalf(w, d, v);
        }
        WalkIsLedger(w, d, v);
      }
      PlainKeeps(w, s, x);
    }
  }

  lemma LowFrame(v: nat)
    requires Low(v) && v < ADDRESSES
    ensures v >= 0xC000_0000 && (v - 0xC000_0000) / PG_SIZE < KDIR
  {
  }

  // ----- runs -----

  datatype Action =
    | Malloc(d: nat, user: bool, cnt: nat) | Target(d: nat, user: bool, n: nat)
    | CreateDir(d: nat) | Write(d: nat, v: nat, x: nat)

  /** Calls are made under an existing directory. A call of target_vaddr_malloc that leaves its bitmap is no step. */
  predicate Enabled(w: World, a: Action) {
    && Active(w, a.d)
    && (a.Target? ==> RightKind(a.d, a.user) ==> Covers(Virtual(w, a.d, a.user), a.n))
    && (a.Write? ==> Storable(w, a.d, a.v))
  }

  function Step(w: World, a: Action): Outcome
    requires Enabled(w, a)
  {
    match a
    case Malloc(d, user, cnt) => MallocPage(w, d, user, cnt)
    case Target(d, user, n) => TargetVaddrMalloc(w, d, user, n).value
    case CreateDir(d) => PageDirCreate(w, d)
    case Write(d, v, x) => Store(w, d, v, x)
  }

  lemma TargetSummary(w: World, d: nat, user: bool, n: nat)
    requires WInv(w) && Active(w, d) && (RightKind(d, user) ==> Covers(Virtual(w, d, user), n))
    ensures TargetVaddrMalloc(w, d, user, n).Some?
    ensures var r := TargetVaddrMalloc(w, d, user, n).value;
            r.Panicked? || (WInv(r.w) && Extends(w, r.w))
  {
    hide WInv, TargetVaddrMalloc, Exhausted, Has, Reserved;
    TargetVaddrMallocKeeps(w, d, user, n);
  }

  lemma StepKeeps(w: World, a: Action)
    requires WInv(w) && Enabled(w, a)
    ensures var r := Step(w, a); r.Done? || r.Failed? ==> WInv(r.w) && Extends(w, r.w)
    ensures Step(w, a).Corrupted? ==> (a.Malloc? || a.Target?) && a.user
  {
    hide WInv, Extends, MallocPage, TargetVaddrMalloc, PageDirCreate, Store, Exhausted, Has;
    match a
    case Malloc(d, user, cnt) => MallocSummary(w, d, user, cnt);
    case Target(d, user, n) =>
      TargetSummary(w, d, user, n);
      TargetVaddrMallocKeeps(w, d, user, n);
    case CreateDir(d) => PageDirCreateKeeps(w, d);
    case Write(d, v, x) => StoreKeeps(w, d, v, x);
  }

  /** w' is reached from w by these calls, each returning, with success or with NULL. */
  ghost predicate Reaches(w: World, actions: seq<Action>, w': World)
    decreases |actions|
  {
    if actions == [] then w' == w
    else
      && Enabled(w, actions[0]) && (Step(w, actions[0]).Done? || Step(w, actions[0]).Failed?)
      && Reaches(Step(w, actions[0]).w, actions[1..], w')
  }

  lemma {:induction false} RunKeeps(w: World, actions: seq<Action>, w': World)
    requires WInv(w) && Reaches(w, actions, w')
    ensures WInv(w') && Extends(w, w')
    decreases |actions|
  {
    hide WInv, Step, Enabled;
    if actions != [] {
      StepKeeps(w, actions[0]);
      RunKeeps(Step(w, actions[0]).w, actions[1..], w');
    }
  }

  // ----- the start -----

  /** The loader's tables: the kernel directory, and the low megabyte in its first table. */
  function BootMem(): Mem {
    (BootDirectory() + BootLowTable())[Slot(KDIR, 0) := Entry(KTABLE0)][Slot(KDIR, SELF) := Entry(KDIR)]
  }

  function BootDirectory(): (m: Mem)
    ensures forall s: Slot :: s in m <==> s.frame == KDIR && 768 <= s.idx <= 1022
    ensures forall s | s in m :: m[s] == Entry(KTable(s.idx))
  {
    map i: nat | 768 <= i <= 1022 :: Slot(KDIR, i) := Entry(KTable(i))
  }

  function BootLowTable(): (m: Mem)
    ensures forall s: Slot :: s in m <==> s.frame == KTABLE0 && s.idx < 256
    ensures forall s | s in m :: m[s] == Entry(s.idx)
  {
    map j: nat | j < 256 :: Slot(KTABLE0, j) := Entry(j)
  }

  /** The state mem_pool_init leaves, for the memory sizes whose bitmaps fit. */
  function BootWorld(allMem: nat): World
    requires L.USED_MEM <= allMem < L.LARGEST
  {
    var p := L.MemPoolInit(allMem);
    World(BootMem(), {},
          Pool(p.kernel.base / PG_SIZE, p.kernel.pages, {}), Pool(p.user.base / PG_SIZE, p.user.pages, {}),
          Pool(p.virt.base / PG_SIZE, p.virt.pages, {}), map[], map[])
  }

  /** What the loader's memory reads. */
  ghost predicate Booted(m: Mem) {
    forall s: Slot :: Rd(m, s) ==
      if s == Slot(KDIR, SELF) then Entry(KDIR)
      else if s == Slot(KDIR, 0) then Entry(KTABLE0)
      else if s.frame == KDIR && 768 <= s.idx <= 1022 then Entry(KTable(s.idx))
      else if s.frame == KTABLE0 && s.idx < 256 then Entry(s.idx)
      else 0
  }

  lemma BootReads()
    ensures Booted(BootMem())
  {
    hide Entry, BootDirectory, BootLowTable;
  }

  lemma BootPools(allMem: nat)
    requires L.USED_MEM <= allMem < L.LARGEST
    ensures var w := BootWorld(allMem); Layout(w) && Booked(w) && Ledger(w)
  {
    hide BootMem;
    L.PoolsTile(allMem);
  }

  lemma BootHalves(w: World)
    requires Booted(w.mem) && w.dirs == {}
    ensures Halves(w)
  {
  }

  lemma BootAccounts(w: World)
    requires Booted(w.mem) && w.dirs == {} && w.own == map[] && w.kpool.base == 512 && w.upool.base >= 512
    ensures Accounted(w) && Zeroed(w)
  {
  }

  lemma BootKeeps(allMem: nat)
    requires L.USED_MEM <= allMem < L.LARGEST
    ensures WInv(BootWorld(allMem))
  {
    hide BootMem, Halves, Accounted, Zeroed, Booted, Ledger;
    BootReads();
    BootPools(allMem);
    BootHalves(BootWorld(allMem));
    BootAccounts(BootWorld(allMem));
  }

  /** All reachable states, all directories ever created, all kernel addresses: one translation. */
  lemma KernelHalfAgreesForever(allMem: nat, before: seq<Action>, w: World, after: seq<Action>, w': World, e: nat,
      v: nat)
    requires L.USED_MEM <= allMem < L.LARGEST
    requires Reaches(BootWorld(allMem), before, w) && Reaches(w, after, w') && Active(w, e) && 768 <= Pdi(v) <= 1022
    ensures Active(w', e) && Walk(w'.mem, e, v) == Walk(w'.mem, KDIR, v)
    ensures Pde(w'.mem, e, v) == Pde(w'.mem, KDIR, v)
  {
    hide WInv, Pdi, Pti, Off, Reaches, Walk, BootWorld;
    BootKeeps(allMem);
    RunKeeps(BootWorld(allMem), before, w);
    RunKeeps(w, after, w');
    KernelHalfAgrees(w', e, v);
  }

  /** In every reachable state: the bits set in the physical bitmaps are the frames of the mapped pages and of the page
      tables, one each. */
  lemma FramesOwnedOnceForever(allMem: nat, actions: seq<Action>, w: World, f: nat)
    requires L.USED_MEM <= allMem < L.LARGEST && Reaches(BootWorld(allMem), actions, w)
    ensures Holds(w.kpool, f) || Holds(w.upool, f) <==> exists o :: Claims(w, o, f)
    ensures forall o, o' | Claims(w, o, f) && Claims(w, o', f) :: o == o'
    ensures forall o | Claims(w, o, f) :: Holds(w.upool, f) <==> o.UserPage?
  {
    BootKeeps(allMem);
    RunKeeps(BootWorld(allMem), actions, w);
    hide WInv, Reaches;
    FramesOwnedOnce(w, f);
  }

  /** Over whole runs a translated address keeps its frame; no call or store of another address moves it. */
  lemma TranslationsStayForever(allMem: nat, before: seq<Action>, w: World, after: seq<Action>, w': World, e: nat,
      v: nat)
    requires L.USED_MEM <= allMem < L.LARGEST
    requires Reaches(BootWorld(allMem), before, w) && Reaches(w, after, w') && Active(w, e) && Tracked(v)
             && Walk(w.mem, e, v).Some?
    ensures Walk(w'.mem, e, v) == Walk(w.mem, e, v)
  {
    BootKeeps(allMem);
    RunKeeps(BootWorld(allMem), before, w);
    RunKeeps(w, after, w');
    hide WInv, Reaches, Walk;
    TranslationsStay(w, w', e, v);
  }

  // ----- how the failures are reached -----

  /** With n free pages above 2 MB, one call from boot leads to a process whose directory is empty. */
  lemma FirstDirectory(n: nat) returns (w: World, d: nat)
    requires 2 <= n && L.USED_MEM + n * PG_SIZE < L.LARGEST
    ensures Reaches(BootWorld(L.USED_MEM + n * PG_SIZE), [CreateDir(KDIR)], w) && WInv(w)
    ensures w.dirs == {d} && w.uvirt[d] == Pool(USER_PAGE, USER_PAGES, {})
    ensures forall i | 0 <= i <= 767 :: !Present(Rd(w.mem, Slot(d, i)))
    ensures Free(w.kpool) == n / 2 - 1 && Free(w.upool) == n - n / 2
  {
    hide WInv, PageDirCreate, BootWorld, Free, Enabled, Step, Reaches, NewSpace;
    var b := BootWorld(L.USED_MEM + n * PG_SIZE);
    BootKeeps(L.USED_MEM + n * PG_SIZE);
    BootFree(n);
    KernelIsActive(b);
    PageDirCreateKeeps(b, KDIR);
    w := PageDirCreate(b, KDIR).w;
    OneCall(b, CreateDir(KDIR));
    d :| d !in b.own && NewSpace(b, w, d);
    FirstIsOnly(b, w, d);
  }

  lemma KernelIsActive(w: World)
    ensures Active(w, KDIR) && Enabled(w, CreateDir(KDIR)) && Step(w, CreateDir(KDIR)) == PageDirCreate(w, KDIR)
  {
    hide PageDirCreate;
  }

  lemma OneCall(w: World, a: Action)
    requires Enabled(w, a) && (Step(w, a).Done? || Step(w, a).Failed?)
    ensures Reaches(w, [a], Step(w, a).w)
  {
    hide Step, Enabled;
    assert [a][1..] == [];
    assert Reaches(Step(w, a).w, [], Step(w, a).w);
  }

  lemma FirstIsOnly(w: World, w': World, f: nat)
    requires w.dirs == {} && NewSpace(w, w', f)
    ensures w'.dirs == {f} && w'.uvirt[f] == Pool(USER_PAGE, USER_PAGES, {})
    ensures forall i | 0 <= i <= 767 :: !Present(Rd(w'.mem, Slot(f, i)))
  {
  }

  lemma BootFree(n: nat)
    requires 2 <= n && L.USED_MEM + n * PG_SIZE < L.LARGEST
    ensures var b := BootWorld(L.USED_MEM + n * PG_SIZE);
            && Free(b.kpool) == n / 2 && Free(b.upool) == n - n / 2 && b.dirs == {} && VaddrGet(b.kvirt, 1).Some?
  {
    hide BootMem;
    var b := BootWorld(L.USED_MEM + n * PG_SIZE);
    assert (L.USED_MEM + n * PG_SIZE - L.USED_MEM) / PG_SIZE == n;
    VaddrGetIsFirstFit(b.kvirt, 1);
    assert Room(b.kvirt, b.kvirt.base, 1);
  }

  lemma FirstUserPages(w: World, d: nat, cnt: nat)
    requires d in w.uvirt && w.uvirt[d] == Pool(USER_PAGE, USER_PAGES, {}) && 0 < cnt <= USER_PAGES
    ensures VaddrGet(Virtual(w, d, true), cnt) == Some(USER_PAGE)
  {
    var p := w.uvirt[d];
    VaddrGetIsFirstFit(p, cnt);
    assert Room(p, USER_PAGE, cnt);
  }

  /** A user page of an empty address space, when only the user pool has frames. */
  lemma FirstPageCorrupts(w: World, d: nat)
    requires WInv(w) && d in w.dirs && w.uvirt[d] == Pool(USER_PAGE, USER_PAGES, {})
    requires !Present(Rd(w.mem, Slot(d, USER_PAGE / ENTRIES))) && Free(w.kpool) == 0 && Free(w.upool) > 0
    ensures VaddrGet(Virtual(w, d, true), 1) == Some(USER_PAGE) && RightKind(d, true)
    ensures TableRunsOut(w, d, true, USER_PAGE, 1) && !Exhausted(w.upool) && TableFails(w, d, true, USER_PAGE)
    ensures Active(w, d) && Covers(Virtual(w, d, true), USER_PAGE)
  {
    hide WInv, Free, MissingTables, Exhausted;
    UvirtOf(w, d);
    FirstUserPages(w, d, 1);
    OneTable(w, d, USER_PAGE);
    PageNumber(USER_PAGE);
    PoolsCount(w);
    OwnersAbove(w);
  }

  lemma UvirtOf(w: World, d: nat)
    requires WInv(w) && d in w.dirs
    ensures d in w.uvirt
  {
  }

  /** What is left of memory then: the directory entry says that the table is frame 0. */
  lemma FrameZeroInDirectory(w: World, d: nat, n: nat)
    requires d > 0 && MapPage(w, d, true, n).NullTable?
    ensures Rd(MapPage(w, d, true, n).mem, Slot(d, n / ENTRIES)) == Entry(0)
  {
    hide Cleared, Grab, Entry;
    PageNumber(n);
    NewTableReads(w.mem, d, n * PG_SIZE, 0, Grab(w.upool).value);
  }

  lemma OnePageMalloc(w: World, d: nat, n: nat)
    requires VaddrGet(Virtual(w, d, true), 1) == Some(n) && MallocPage(w, d, true, 1).Corrupted? && d > 0
    ensures Rd(MallocPage(w, d, true, 1).mem, Slot(d, n / ENTRIES)) == Entry(0)
  {
    hide MapPage, VaddrGet, Entry;
    var p := Virtual(w, d, true);
    var w1 := WithVirtual(w, d, true, Reserved(p, n - p.base, 1));
    assert MallocPage(w, d, true, 1) == MapPages(w1, d, true, n, 1);
    FrameZeroInDirectory(w1, d, n);
  }

  /** Three free pages: the new directory takes the kernel pool's only frame, and the first user page, whether from
      malloc_page or from target_vaddr_malloc, makes physical frame 0 its page table. */
  lemma FrameZeroBecomesATable() returns (w: World, d: nat)
    ensures Reaches(BootWorld(L.USED_MEM + 3 * PG_SIZE), [CreateDir(KDIR)], w) && d in w.dirs
    ensures Enabled(w, Malloc(d, true, 1)) && Step(w, Malloc(d, true, 1)).Corrupted?
    ensures Enabled(w, Target(d, true, USER_PAGE)) && Step(w, Target(d, true, USER_PAGE)).Corrupted?
    ensures Rd(Step(w, Malloc(d, true, 1)).mem, Slot(d, USER_PAGE / ENTRIES)) == Entry(0)
  {
    hide WInv, Reaches, BootWorld, Free, Grows, MallocPage, TargetVaddrMalloc, Exhausted, TableFails, TableRunsOut,
         VaddrGet, Has;
    w, d := FirstDirectory(3);
    FirstPageCorrupts(w, d);
    OwnersAbove(w);
    MallocPageKeeps(w, d, true, 1);
    TargetVaddrMallocKeeps(w, d, true, USER_PAGE);
    OnePageMalloc(w, d, USER_PAGE);
  }

  /** Five free pages: a request for four user pages returns NULL and leaves three of them mapped. */
  lemma NullLeavesPagesMapped() returns (w: World, d: nat)
    ensures Reaches(BootWorld(L.USED_MEM + 5 * PG_SIZE), [CreateDir(KDIR)], w) && d in w.dirs
    ensures Enabled(w, Malloc(d, true, 4)) && Step(w, Malloc(d, true, 4)).Failed?
    ensures var w' := Step(w, Malloc(d, true, 4)).w;
            && WInv(w') && forall m: nat | USER_PAGE <= m < USER_PAGE + 3 :: Has(w'.own, UserPage(d, m))
  {
    hide WInv, Reaches, BootWorld, Free, Has, MallocPage, MissingTables, VaddrGet, Exhausted;
    w, d := FirstDirectory(5);
    UvirtOf(w, d);
    FirstUserPages(w, d, 4);
    OneIndex(w, d);
    MallocPageKeeps(w, d, true, 4);
    var w' := MallocPage(w, d, true, 4).w;
    forall m: nat | USER_PAGE <= m < USER_PAGE + 3 ensures Has(w'.own, UserPage(d, m)) {
      assert Has(w'.own, PageOwner(true, d, m));
    }
  }

  lemma OneIndex(w: World, d: nat)
    ensures |MissingTables(w, d, USER_PAGE, 3)| <= 1 && |MissingTables(w, d, USER_PAGE, 4)| <= 1
  {
    assert MissingTables(w, d, USER_PAGE, 4) <= {USER_PAGE / ENTRIES};
    SubsetSize(MissingTables(w, d, USER_PAGE, 4), {USER_PAGE / ENTRIES});
    SubsetSize(MissingTables(w, d, USER_PAGE, 3), {USER_PAGE / ENTRIES});
  }

  // ----- addr_v2p of an unmapped page -----

  /** At the start no page of the kernel's heap is mapped, but all its page tables are there: addr_v2p answers with an
      address in frame 0. */
  lemma AddrV2PAnswersForNothing(allMem: nat, v: nat)
    requires L.USED_MEM <= allMem < L.LARGEST && KHEAP_PAGE <= v / PG_SIZE < 1023 * ENTRIES
    ensures var w := BootWorld(allMem);
            && WInv(w) && Active(w, KDIR) && !Has(w.own, KernelPage(v / PG_SIZE))
            && Walk(w.mem, KDIR, v).None? && AddrV2P(w.mem, KDIR, v) == Some(Off(v))
  {
    hide WInv, Walk;
    var m := BootWorld(allMem).mem;
    BootKeeps(allMem);
    BootReads();
    NotThere(m, v);
    assert SelfMapped(m, KDIR);
    RecursivePte(m, KDIR, v);
  }

  lemma NotThere(m: Mem, v: nat)
    requires Booted(m) && KHEAP_PAGE <= v / PG_SIZE < 1023 * ENTRIES
    ensures v < ADDRESSES && Present(Pde(m, KDIR, v)) && Pte(m, KDIR, v) == 0 && SelfMapped(m, KDIR)
    ensures Walk(m, KDIR, v).None?
  {
  }
}

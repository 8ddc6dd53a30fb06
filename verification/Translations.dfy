/** What the allocator's invariant says of translations: which address reaches which frame, and whose it is. */
module Translations {
  import opened Options
  import opened Paging
  import opened AddressSpaces
  import opened PageAllocation

  // ----- what a walk means in terms of the ledger -----

  lemma PageOf(v: nat)
    ensures Pdi(v) == v / PG_SIZE / ENTRIES && Pti(v) == v / PG_SIZE % ENTRIES && Off(v) < PG_SIZE
  {
  }

  lemma FrameAt(f: nat, off: nat)
    requires off < PG_SIZE
    ensures (f * PG_SIZE + off) / PG_SIZE == f
  {
  }

  lemma WalkByPage(m: Mem, d: nat, v: nat)
    ensures Walk(m, d, v).Some? <==> Walk(m, d, v / PG_SIZE * PG_SIZE).Some?
    ensures Walk(m, d, v).Some? ==> Walk(m, d, v).value == Walk(m, d, v / PG_SIZE * PG_SIZE).value + Off(v)
  {
    PageNumber(v / PG_SIZE);
  }

  /** Every directory translates every kernel address as the kernel's own directory does. */
  lemma KernelHalfAgrees(w: World, e: nat, v: nat)
    requires WInv(w) && Active(w, e) && 768 <= Pdi(v) <= 1022
    ensures Walk(w.mem, e, v) == Walk(w.mem, KDIR, v) && Pde(w.mem, e, v) == Pde(w.mem, KDIR, v)
  {
    hide Pdi, Pti, Off, Ledger, Accounted, Zeroed, Booked;
    assert Pde(w.mem, e, v) == Entry(KTable(Pdi(v)));
    assert Pde(w.mem, KDIR, v) == Entry(KTable(Pdi(v)));
  }

  /** The low megabyte, which the loader mapped. */
  predicate Low(v: nat) {
    Pdi(v) == 768 && Pti(v) < 256
  }

  function Object(e: nat, v: nat): Owner {
    PageOwner(Pdi(v) < 768, e, v / PG_SIZE)
  }

  lemma {:induction false} WalkIsLedger(w: World, e: nat, v: nat)
    requires WInv(w) && Active(w, e) && Tracked(v) && !Low(v) && (Pdi(v) < 768 ==> e in w.dirs)
    ensures Walk(w.mem, e, v).Some? ==>
              var f := Walk(w.mem, e, v).value / PG_SIZE;
              f in w.own && w.own[f] == Object(e, v) && Walk(w.mem, e, v) == Some(f * PG_SIZE + Off(v))
    ensures forall f: nat | f in w.own && w.own[f] == Object(e, v) :: Walk(w.mem, e, v) == Some(f * PG_SIZE + Off(v))
  {
    hide WInv, Pdi, Pti, Off, Walk;
    var n := v / PG_SIZE;
    PageNumber(n);
    PageOf(v);
    WalkByPage(w.mem, e, v);
    WalkIsPage(w.mem, e, n);
    if Pdi(v) >= 768 {
      KernelHalfAgrees(w, e, n * PG_SIZE);
    }
    if Walk(w.mem, e, v).Some? {
      var g := FrameOf(Pte(w.mem, e, n * PG_SIZE));
      LedgerIsTables(w, Object(e, v), g);
      FrameAt(g, Off(v));
    }
    forall f: nat | f in w.own && w.own[f] == Object(e, v) ensures Walk(w.mem, e, v) == Some(f * PG_SIZE + Off(v)) {
      LedgerIsTables(w, Object(e, v), f);
    }
  }

  lemma WalkIsPage(m: Mem, e: nat, n: nat)
    ensures Walk(m, e, n * PG_SIZE).Some? ==> Walk(m, e, n * PG_SIZE) == Some(FrameOf(Pte(m, e, n * PG_SIZE)) * PG_SIZE)
  {
  }

  lemma LowIsFixed(w: World, e: nat, v: nat)
    requires WInv(w) && Active(w, e) && Tracked(v) && Low(v)
    ensures Walk(w.mem, e, v) == Some(v - 0xC000_0000)
  {
    LowParts(v);
    hide Pdi, Pti, Off, Ledger, Accounted, Zeroed, Booked;
    assert Pde(w.mem, e, v) == Entry(KTable(768));
  }

  lemma LowParts(v: nat)
    requires Low(v)
    ensures v - 0xC000_0000 == Pti(v) * PG_SIZE + Off(v)
  {
    assert v == Pdi(v) * 0x40_0000 + Pti(v) * PG_SIZE + Off(v);
  }

  /** No frame changes owner. */
  ghost predicate Extends(w: World, w': World) {
    && w.dirs <= w'.dirs
    && forall f | f in w.own :: f in w'.own && w'.own[f] == w.own[f]
  }

  /** Once an address is translated it stays translated to the same place, in every address space. */
  lemma TranslationsStay(w: World, w': World, e: nat, v: nat)
    requires WInv(w) && WInv(w') && Extends(w, w') && Active(w, e) && Tracked(v) && Walk(w.mem, e, v).Some?
    ensures Walk(w'.mem, e, v) == Walk(w.mem, e, v)
  {
    hide WInv, Walk, Pdi, Pti, Off;
    if Low(v) {
      LowIsFixed(w, e, v);
      LowIsFixed(w', e, v);
    } else {
      if Pdi(v) < 768 {
        NoUserHalf(w, e, v);
      }
      WalkIsLedger(w, e, v);
      WalkIsLedger(w', e, v);
    }
  }

  lemma NoUserHalf(w: World, e: nat, v: nat)
    requires WInv(w) && Active(w, e) && Tracked(v) && Pdi(v) < 768 && Walk(w.mem, e, v).Some?
    ensures e in w.dirs
  {
    hide Pdi, Pti, Off, Ledger, Accounted, Zeroed, Booked;
  }

  /** A successful or half-done allocation changes no translation but those of its own pages; a user's pages only in the
      user's own address space, a kernel page in all. */
  lemma OthersUntouched(w: World, w': World, d: nat, user: bool, n: nat, cnt: nat, e: nat, v: nat)
    requires WInv(w) && WInv(w') && Grows(w, w', d, user, n, cnt) && Active(w, e) && Tracked(v)
    requires !(n <= v / PG_SIZE < n + cnt && user == (Pdi(v) < 768) && (user ==> e == d))
    ensures Walk(w'.mem, e, v) == Walk(w.mem, e, v)
  {
    hide WInv, Walk, Pdi, Pti, Off;
    if Walk(w.mem, e, v).Some? {
      TranslationsStay(w, w', e, v);
    } else if Walk(w'.mem, e, v).Some? {
      if Low(v) {
        LowIsFixed(w, e, v);
      } else {
        if Pdi(v) < 768 {
          NoUserHalf(w', e, v);
        }
        WalkIsLedger(w', e, v);
        WalkIsLedger(w, e, v);
      }
    }
  }

  /** After a successful allocation every byte of its pages is translated, into frames that were free. */
  lemma PagesAreMapped(w: World, w': World, d: nat, user: bool, n: nat, cnt: nat, v: nat)
    requires WInv(w) && WInv(w') && Grows(w, w', d, user, n, cnt) && Active(w, d) && Unmapped(w, d, user, n, cnt)
             && (user ==> d in w.dirs)
    requires n <= v / PG_SIZE < n + cnt
    ensures Walk(w'.mem, d, v).Some? && Walk(w'.mem, d, v).value / PG_SIZE !in w.own
  {
    hide WInv, Walk, Pdi, Pti, Off;
    var m := v / PG_SIZE;
    assert Holds(Virtual(w, d, user), m) && !Has(w.own, PageOwner(user, d, m));
    PageOf(v);
    PageInRange(w, d, user, m);
    TrackedPage(v);
    assert Has(w'.own, PageOwner(user, d, m));
    var f: nat :| f in w'.own && w'.own[f] == Object(d, v);
    WalkIsLedger(w', d, v);
    FrameAt(f, Off(v));
  }

  lemma TrackedPage(v: nat)
    requires 1 <= v / PG_SIZE / ENTRIES <= 1022
    ensures Tracked(v)
  {
  }

  lemma PageInRange(w: World, d: nat, user: bool, m: nat)
    requires WInv(w) && (user ==> d in w.dirs) && Holds(Virtual(w, d, user), m)
    ensures 1 <= m / ENTRIES <= 1022 && (user <==> m / ENTRIES < 768) && !(m / ENTRIES == 768 && m % ENTRIES < 256)
  {
  }

  // ----- ownership -----

  /** Bits of the two physical pools and objects of the page tables correspond one to one: a bit is set iff some page or
      page table has the frame, and no two of those have the same frame. */
  lemma FramesOwnedOnce(w: World, f: nat)
    requires WInv(w)
    ensures Holds(w.kpool, f) || Holds(w.upool, f) <==> exists o :: Claims(w, o, f)
    ensures forall o, o' | Claims(w, o, f) && Claims(w, o', f) :: o == o'
    ensures forall o | Claims(w, o, f) :: Holds(w.upool, f) <==> o.UserPage?
  {
    hide WInv, Claims;
    BitsAreLedger(w, f);
    forall o ensures Claims(w, o, f) <==> f in w.own && w.own[f] == o {
      LedgerIsTables(w, o, f);
    }
    if f in w.own {
      assert Claims(w, w.own[f], f);
    }
  }

  lemma BitsAreLedger(w: World, f: nat)
    requires WInv(w)
    ensures f in w.own <==> Holds(w.kpool, f) || Holds(w.upool, f)
    ensures f in w.own ==> (Holds(w.upool, f) <==> w.own[f].UserPage?)
  {
    hide Halves, Accounted, Zeroed;
    if f in w.own {
      assert OwnerOk(w, f);
    }
  }

  /** Two translated addresses share a physical page only if they are the same page of the same address space, or the
      same kernel page. */
  lemma DistinctPagesDistinctFrames(w: World, e: nat, v: nat, e': nat, v': nat)
    requires WInv(w) && Active(w, e) && Active(w, e') && Tracked(v) && Tracked(v') && !Low(v) && !Low(v')
    requires Walk(w.mem, e, v).Some? && Walk(w.mem, e', v').Some?
    requires Walk(w.mem, e, v).value / PG_SIZE == Walk(w.mem, e', v').value / PG_SIZE
    ensures v / PG_SIZE == v' / PG_SIZE && (Pdi(v) < 768 ==> e == e')
  {
    hide WInv, Walk, Pdi, Pti, Off;
    if Pdi(v) < 768 {
      NoUserHalf(w, e, v);
    }
    if Pdi(v') < 768 {
      NoUserHalf(w, e', v');
    }
    WalkIsLedger(w, e, v);
    WalkIsLedger(w, e', v');
  }

  /** A store to a user address never reaches a page table, a page directory or kernel data. */
  lemma UserStoresReachUserPages(w: World, e: nat, v: nat)
    requires WInv(w) && Active(w, e) && Tracked(v) && Pdi(v) < 768 && Walk(w.mem, e, v).Some?
    ensures var f := Walk(w.mem, e, v).value / PG_SIZE;
            f in w.own && w.own[f] == UserPage(e, v / PG_SIZE) && f !in w.dirs && f >= 512
  {
    hide WInv, Walk, Pdi, Pti, Off;
    NoUserHalf(w, e, v);
    WalkIsLedger(w, e, v);
    OwnersAbove(w);
  }

  lemma OwnersAbove(w: World)
    requires WInv(w)
    ensures forall f | f in w.own :: f >= 512
    ensures forall d | d in w.dirs :: d >= 512 && d in w.own && w.own[d].KernelPage?
  {
    hide Halves, Ledger, Accounted, Zeroed;
    OwnedAbove(w);
  }
}

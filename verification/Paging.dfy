/** Two-level address translation (section 4.3 of the Intel SDM, volume 3A: 32-bit paging, 4-KByte pages) over physical
    memory made of frames of 1024 words, and the kernel's edits of it through the recursive directory entry. */
module Paging {
  import opened Options

  const PG_SIZE: nat := 4096
  const ENTRIES: nat := 1024
  const SELF: nat := 1023
  const ADDRESSES: nat := 0x1_0000_0000

  /** One word of physical memory: frame number and index of the word in the frame. */
  datatype Slot = Slot(frame: nat, idx: nat)

  type Mem = map<Slot, nat>

  function Rd(m: Mem, s: Slot): nat {
    if s in m then m[s] else 0
  }

  // ----- fields of addresses and entries -----

  function Pdi(v: nat): nat {
    v / 0x40_0000
  }

  function Pti(v: nat): nat {
    v / PG_SIZE % ENTRIES
  }

  function Off(v: nat): nat {
    v % PG_SIZE
  }

  function Present(e: nat): bool {
    e % 2 == 1
  }

  function FrameOf(e: nat): nat {
    e / PG_SIZE
  }

  /** paddr | PG_US_U | PG_RW_W | PG_P_1 for the page-aligned address of a frame. */
  function Entry(f: nat): (e: nat)
    ensures Present(e) && FrameOf(e) == f
  {
    f * PG_SIZE + 7
  }

  /** The word that a physical address falls in. */
  function WordAt(pa: nat): Slot {
    Slot(pa / PG_SIZE, pa % PG_SIZE / 4)
  }

  // ----- translation, as the processor does it -----

  function Pde(m: Mem, d: nat, v: nat): nat {
    Rd(m, Slot(d, Pdi(v)))
  }

  function Pte(m: Mem, d: nat, v: nat): nat {
    Rd(m, Slot(FrameOf(Pde(m, d, v)), Pti(v)))
  }

  /** The physical address of linear address v under the directory in frame d. */
  function Walk(m: Mem, d: nat, v: nat): Option<nat> {
    if !Present(Pde(m, d, v)) || !Present(Pte(m, d, v)) then None
    else Some(FrameOf(Pte(m, d, v)) * PG_SIZE + Off(v))
  }

  predicate SelfMapped(m: Mem, d: nat) {
    Present(Rd(m, Slot(d, SELF))) && FrameOf(Rd(m, Slot(d, SELF))) == d
  }

  // ----- the recursive entry -----

  /** 0xffc00000 + ((v & 0xffc00000) >> 10) + PTE_IDX(v) * 4 */
  function PteVaddr(v: nat): nat {
    0xffc0_0000 + Pdi(v) * PG_SIZE + Pti(v) * 4
  }

  /** 0xfffff000 + PDE_IDX(v) * 4 */
  function PdeVaddr(v: nat): nat {
    0xffff_f000 + Pdi(v) * 4
  }

  /** The C expressions on 32-bit words, with their masks and shifts, have these three fields. */
  lemma PteVaddrBits(v: bv32)
    ensures var e := 0xffc0_0000 + ((v & 0xffc0_0000) >> 10) + ((v & 0x003f_f000) >> 12) * 4;
            && e >> 22 == 1023 && (e & 0x003f_f000) >> 12 == v >> 22 && (e & 0xfff) == ((v & 0x003f_f000) >> 12) << 2
  {
  }

  lemma PdeVaddrBits(v: bv32)
    ensures var e := 0xffff_f000 + ((v & 0xffc0_0000) >> 22) * 4;
            && e >> 22 == 1023 && (e & 0x003f_f000) >> 12 == 1023 && (e & 0xfff) == (v >> 22) << 2
  {
  }

  /** The word form of Entry: or-ing the three flag bits into an aligned address changes nothing else. */
  lemma EntryBits(p: bv32)
    requires p & 0xfff == 0
    ensures p | 4 | 2 | 1 == p + 7 && (p | 4 | 2 | 1) & 0xffff_f000 == p && (p | 4 | 2 | 1) & 1 == 1
  {
  }

  lemma PteVaddrFields(v: nat)
    requires v < ADDRESSES
    ensures PteVaddr(v) < ADDRESSES && Pdi(PteVaddr(v)) == SELF && Pti(PteVaddr(v)) == Pdi(v)
            && Off(PteVaddr(v)) == Pti(v) * 4
  {
  }

  lemma PdeVaddrFields(v: nat)
    requires v < ADDRESSES
    ensures PdeVaddr(v) < ADDRESSES && Pdi(PdeVaddr(v)) == SELF && Pti(PdeVaddr(v)) == SELF
            && Off(PdeVaddr(v)) == Pdi(v) * 4
  {
  }

  /** Under a self-mapped directory pte_vaddr_get(v) is translated to the address of v's own page-table entry. */
  lemma RecursivePte(m: Mem, d: nat, v: nat)
    requires SelfMapped(m, d) && v < ADDRESSES && Present(Pde(m, d, v))
    ensures Walk(m, d, PteVaddr(v)) == Some(FrameOf(Pde(m, d, v)) * PG_SIZE + Pti(v) * 4)
    ensures WordAt(Walk(m, d, PteVaddr(v)).value) == Slot(FrameOf(Pde(m, d, v)), Pti(v))
  {
    PteVaddrFields(v);
  }

  /** And pde_vaddr_get(v) to the address of its directory entry, present or not. */
  lemma RecursivePde(m: Mem, d: nat, v: nat)
    requires SelfMapped(m, d) && v < ADDRESSES
    ensures Walk(m, d, PdeVaddr(v)) == Some(d * PG_SIZE + Pdi(v) * 4)
    ensures WordAt(Walk(m, d, PdeVaddr(v)).value) == Slot(d, Pdi(v))
  {
    PdeVaddrFields(v);
  }

  /** Without a present directory entry the page-table address is not translatable at all. */
  lemma RecursivePteAbsent(m: Mem, d: nat, v: nat)
    requires SelfMapped(m, d) && v < ADDRESSES && !Present(Pde(m, d, v))
    ensures Walk(m, d, PteVaddr(v)).None?
  {
    PteVaddrFields(v);
  }

  // ----- addr_v2p -----

  /** The load through the recursive entry and the sum; None is a page fault. */
  function AddrV2P(m: Mem, d: nat, v: nat): Option<nat> {
    match Walk(m, d, PteVaddr(v))
    case None => None
    case Some(pa) => Some(FrameOf(Rd(m, WordAt(pa))) * PG_SIZE + Off(v))
  }

  /** addr_v2p agrees with the processor's translation exactly when the page is mapped or its table is missing; of an
      unmapped page under a present table it still returns a number. */
  lemma AddrV2PAgrees(m: Mem, d: nat, v: nat)
    requires SelfMapped(m, d) && v < ADDRESSES
    ensures AddrV2P(m, d, v) == Walk(m, d, v) <==> !Present(Pde(m, d, v)) || Present(Pte(m, d, v))
    ensures AddrV2P(m, d, v).None? <==> !Present(Pde(m, d, v))
  {
    if Present(Pde(m, d, v)) {
      RecursivePte(m, d, v);
    } else {
      RecursivePteAbsent(m, d, v);
    }
  }

  // ----- v2p_mapping -----

  function Cleared(m: Mem, t: nat): (r: Mem)
    ensures forall s :: Rd(r, s) == if s.frame == t && s.idx < ENTRIES then 0 else Rd(m, s)
  {
    m + map i: nat | i < ENTRIES :: Slot(t, i) := 0
  }

  /** The edit when the directory entry is present. */
  function SetPte(m: Mem, d: nat, v: nat, f: nat): Mem {
    m[Slot(FrameOf(Pde(m, d, v)), Pti(v)) := Entry(f)]
  }

  /** The edit when it is absent and frame t becomes the page table. */
  function NewTable(m: Mem, d: nat, v: nat, t: nat, f: nat): Mem {
    Cleared(m[Slot(d, Pdi(v)) := Entry(t)], t)[Slot(t, Pti(v)) := Entry(f)]
  }

  /** Directory entries 1..1022 that are present name pairwise different tables, none of them the directory itself. */
  ghost predicate TablesApart(m: Mem, d: nat) {
    && SelfMapped(m, d)
    && (forall i | 1 <= i <= 1022 && Present(Rd(m, Slot(d, i))) :: FrameOf(Rd(m, Slot(d, i))) != d)
    && (forall i, j | 1 <= i <= 1022 && 1 <= j <= 1022 && i != j
                      && Present(Rd(m, Slot(d, i))) && Present(Rd(m, Slot(d, j))) ::
          FrameOf(Rd(m, Slot(d, i))) != FrameOf(Rd(m, Slot(d, j))))
  }

  ghost predicate FreshTable(m: Mem, d: nat, t: nat) {
    && t != d
    && forall i | 1 <= i <= 1022 && Present(Rd(m, Slot(d, i))) :: FrameOf(Rd(m, Slot(d, i))) != t
  }

  predicate Tracked(v: nat) {
    v < ADDRESSES && 1 <= Pdi(v) <= 1022
  }

  /** After the edit every byte of v's page translates into frame f, and every other page as before. */
  ghost predicate MapsOnly(m: Mem, m': Mem, d: nat, v: nat, f: nat) {
    forall u: nat | Tracked(u) ::
      Walk(m', d, u) == if u / PG_SIZE == v / PG_SIZE then Some(f * PG_SIZE + Off(u)) else Walk(m, d, u)
  }

  lemma PageFields(v: nat, u: nat)
    requires Tracked(v) && Tracked(u)
    ensures u / PG_SIZE == v / PG_SIZE <==> Pdi(u) == Pdi(v) && Pti(u) == Pti(v)
  {
    assert u / PG_SIZE == Pdi(u) * ENTRIES + Pti(u);
    assert v / PG_SIZE == Pdi(v) * ENTRIES + Pti(v);
  }

  lemma SetPteMaps(m: Mem, d: nat, v: nat, f: nat)
    requires TablesApart(m, d) && Tracked(v) && Present(Pde(m, d, v))
    ensures MapsOnly(m, SetPte(m, d, v, f), d, v, f) && TablesApart(SetPte(m, d, v, f), d)
  {
    var m' := SetPte(m, d, v, f);
    assert forall i | 1 <= i <= 1023 :: Rd(m', Slot(d, i)) == Rd(m, Slot(d, i));
    forall u: nat | Tracked(u)
      ensures Walk(m', d, u) == if u / PG_SIZE == v / PG_SIZE then Some(f * PG_SIZE + Off(u)) else Walk(m, d, u)
    {
      PageFields(v, u);
    }
  }

  lemma NewTableReads(m: Mem, d: nat, v: nat, t: nat, f: nat)
    requires t != d
    ensures forall s :: Rd(NewTable(m, d, v, t, f), s) ==
              if s == Slot(t, Pti(v)) then Entry(f)
              else if s.frame == t && s.idx < ENTRIES then 0
              else if s == Slot(d, Pdi(v)) then Entry(t) else Rd(m, s)
  {
  }

  lemma NewTableMaps(m: Mem, d: nat, v: nat, t: nat, f: nat)
    requires TablesApart(m, d) && FreshTable(m, d, t) && Tracked(v) && !Present(Pde(m, d, v))
    ensures MapsOnly(m, NewTable(m, d, v, t, f), d, v, f) && TablesApart(NewTable(m, d, v, t, f), d)
  {
    hide NewTable;
    var m' := NewTable(m, d, v, t, f);
    NewTableReads(m, d, v, t, f);
    assert forall i | 1 <= i <= 1023 :: Rd(m', Slot(d, i)) == if i == Pdi(v) then Entry(t) else Rd(m, Slot(d, i));
    forall u: nat | Tracked(u)
      ensures Walk(m', d, u) == if u / PG_SIZE == v / PG_SIZE then Some(f * PG_SIZE + Off(u)) else Walk(m, d, u)
    {
      PageFields(v, u);
    }
  }
}

/** mem_pool_init: how physical memory above 2 MB is divided into two pools, and where their three bitmaps lie. */
module PoolLayout {
  import B = Bitmaps

  const PG_SIZE: nat := 4096
  const USED_MEM: nat := 0x20_0000
  const BITMAP_BASE: nat := 0xC009_A000
  const IDLE_TCB: nat := 0xC009_E000
  const ADDRESSES: nat := 0x1_0000_0000

  /** A pool: first byte address, number of pages, first byte of its bitmap. */
  datatype PoolAt = PoolAt(base: nat, pages: nat, bitmap: nat)

  datatype Pools = Pools(kernel: PoolAt, user: PoolAt, virt: PoolAt)

  /** btmp_bytes_len4pages */
  function BtmpBytesLen4Pages(pages: nat): nat {
    if pages % 8 == 0 then pages / 8 else pages / 8 + 1
  }

  function MemPoolInit(allMem: nat): Pools
    requires USED_MEM <= allMem < ADDRESSES
  {
    var free := (allMem - USED_MEM) / PG_SIZE;
    var k := free / 2;
    var u := free - k;
    var klen, ulen := BtmpBytesLen4Pages(k), BtmpBytesLen4Pages(u);
    Pools(PoolAt(USED_MEM, k, BITMAP_BASE),
          PoolAt(USED_MEM + k * PG_SIZE, u, BITMAP_BASE + klen),
          PoolAt(0xC010_0000, k, BITMAP_BASE + klen + ulen))
  }

  function End(p: PoolAt): nat {
    p.base + p.pages * PG_SIZE
  }

  /** The first byte after the bytes that bitmap_init clears. */
  function BitmapEnd(p: PoolAt): nat {
    p.bitmap + B.ByteLen(p.pages)
  }

  /** The two frame pools tile [2 MB, all_mem) but for less than a page at the top, the user's never the smaller; the
      kernel's heap has a page for each frame of its pool; and the bytes each bitmap clears and uses are the bytes set
      aside for it, one after the other. */
  lemma PoolsTile(allMem: nat)
    requires USED_MEM <= allMem < ADDRESSES
    ensures var p := MemPoolInit(allMem);
            && p.kernel.base == USED_MEM && End(p.kernel) == p.user.base
            && End(p.user) <= allMem < End(p.user) + PG_SIZE
            && p.kernel.pages <= p.user.pages <= p.kernel.pages + 1
            && p.kernel.base % PG_SIZE == 0 && p.user.base % PG_SIZE == 0
            && p.virt.base == 0xC010_0000 && p.virt.pages == p.kernel.pages
            && p.kernel.bitmap == BITMAP_BASE && BitmapEnd(p.kernel) == p.user.bitmap
            && BitmapEnd(p.user) == p.virt.bitmap && p.virt.bitmap <= BitmapEnd(p.virt)
  {
    var free := (allMem - USED_MEM) / PG_SIZE;
    assert free * PG_SIZE <= allMem - USED_MEM < (free + 1) * PG_SIZE;
  }

  /** The memory size up to which the third bitmap ends at or below the idle thread's page. */
  const LARGEST: nat := USED_MEM + 87378 * PG_SIZE

  /** Nothing checks it, but the bitmaps stay clear of the idle thread's control block iff memory is below this bound
      of about 343 MB, far above the 32 MB the code is written for. */
  lemma BitmapsFit(allMem: nat)
    requires USED_MEM <= allMem < ADDRESSES
    ensures BitmapEnd(MemPoolInit(allMem).virt) <= IDLE_TCB <==> allMem < LARGEST
    ensures allMem <= 32 * 1024 * 1024 ==> BitmapEnd(MemPoolInit(allMem).virt) <= IDLE_TCB
  {
    var n := (allMem - USED_MEM) / PG_SIZE;
    BytesFor(n);
    assert allMem < LARGEST <==> n <= 87377;
  }

  /** Bitmap bytes for n free pages, twice for the kernel's half. */
  function BytesOf(n: nat): nat {
    2 * B.ByteLen(n / 2) + B.ByteLen(n - n / 2)
  }

  lemma BytesFor(n: nat)
    ensures BytesOf(n) <= 0x4000 <==> n <= 87377
  {
    var k := n / 2;
    var u := n - k;
    assert k <= 43688 <==> B.ByteLen(k) <= 5461;
    assert u <= 43688 ==> B.ByteLen(u) <= 5461;
    assert n <= 87377 ==> k <= 43688 && u <= 43689;
    assert n > 87377 ==> k > 43688 && u > 43688;
  }

  /** The pages that user_vaddr_bitmap_create asks for are enough for the bits it initialises, and the least number that
      has room for more than bits / 8 + 1 bytes. */
  function BitmapPagesNeed(bits: nat): nat {
    (bits / 8 + 1) / PG_SIZE + 1
  }

  lemma UserBitmapFits(bits: nat)
    ensures B.ByteLen(bits) <= BitmapPagesNeed(bits) * PG_SIZE
    ensures (BitmapPagesNeed(bits) - 1) * PG_SIZE <= bits / 8 + 1 < BitmapPagesNeed(bits) * PG_SIZE
  {
    var q := bits / 8 + 1;
    assert q / PG_SIZE * PG_SIZE <= q < (q / PG_SIZE + 1) * PG_SIZE;
  }
}

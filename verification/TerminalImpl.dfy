/** print.c's screen in its own form: video memory and cursor changed in place. */
module TerminalObjects {
  import opened Terminal
  import W = Words

  /** Which byte of the source a forward copy puts at offset k. */
  function Origin(dst: nat, src: nat, k: nat): (o: nat)
    ensures o <= k
  {
    if src < dst then k % (dst - src) else k
  }

  /** A byte read after it was overwritten has the origin of the byte that overwrote it. */
  lemma OriginRepeats(dst: nat, src: nat, i: nat)
    ensures dst <= src + i && src < dst ==> Origin(dst, src, i) == Origin(dst, src, src + i - dst)
    ensures src + i < dst || dst <= src ==> Origin(dst, src, i) == i
  {
    if dst <= src + i && src < dst {
      var p := dst - src;
      var q, r := (i - p) / p, (i - p) % p;
      assert i == (q + 1) * p + r;
      W.DivMod(i, p, q + 1, r);
    }
  }

  /** A forward copy is right exactly when the destination does not start inside the source. */
  lemma OriginIsSource(dst: nat, src: nat, size: nat)
    ensures (forall k: nat | k < size :: Origin(dst, src, k) == k) <==> dst <= src || src + size <= dst
  {
    if src < dst < src + size {
      assert Origin(dst, src, dst - src) == 0;
    }
  }

  /** v is `was` after the first n bytes of a forward copy. */
  ghost predicate Copied(was: seq<Byte>, v: seq<Byte>, dst: nat, src: nat, n: nat) {
    && |v| == |was| && dst + n <= |v| && src + n <= |v|
    && (forall k | 0 <= k < n :: v[dst + k] == was[src + Origin(dst, src, k)])
    && (forall k | 0 <= k < |v| && !(dst <= k < dst + n) :: v[k] == was[k])
  }

  lemma CopiedNone(was: seq<Byte>, dst: nat, src: nat)
    requires dst <= |was| && src <= |was|
    ensures Copied(was, was, dst, src, 0)
  {
  }

  lemma CopyOne(was: seq<Byte>, v: seq<Byte>, dst: nat, src: nat, n: nat)
    requires Copied(was, v, dst, src, n) && dst + n < |v| && src + n < |v|
    ensures Copied(was, v[dst + n := v[src + n]], dst, src, n + 1)
  {
    OriginRepeats(dst, src, n);
    hide Origin;
    var v' := v[dst + n := v[src + n]];
    assert v[src + n] == was[src + Origin(dst, src, n)] by {
      if src < dst <= src + n {
        assert v[dst + (src + n - dst)] == was[src + Origin(dst, src, src + n - dst)];
      }
    }
    forall k | 0 <= k < n + 1 ensures v'[dst + k] == was[src + Origin(dst, src, k)] {
      assert k < n ==> v[dst + k] == was[src + Origin(dst, src, k)];
    }
  }

  lemma CopiedBytes(was: seq<Byte>, v: seq<Byte>, dst: nat, src: nat, n: nat)
    requires Copied(was, v, dst, src, n)
    ensures forall k | 0 <= k < n :: v[dst + k] == was[src + Origin(dst, src, k)]
    ensures forall k | 0 <= k < |v| && !(dst <= k < dst + n) :: v[k] == was[k]
    ensures |v| == |was| && dst + n <= |v| && src + n <= |v|
    ensures dst <= src || src + n <= dst ==> v[dst..dst + n] == was[src..src + n]
  {
    OriginIsSource(dst, src, n);
    if dst <= src || src + n <= dst {
      var a, b := v[dst..dst + n], was[src..src + n];
      forall k | 0 <= k < n ensures a[k] == b[k] {
        assert v[dst + k] == was[src + Origin(dst, src, k)];
      }
    }
  }

  /** One more blank cell of the last row. */
  lemma BlankOneMore(v: seq<Byte>, n: nat)
    requires LAST_LINE + 2 * n + 2 <= |v| && v[LAST_LINE..LAST_LINE + 2 * n] == BlankCells(n)
    requires v[LAST_LINE + 2 * n] == BLANK && v[LAST_LINE + 2 * n + 1] == BLK_BACK_WHT_WORD
    ensures v[LAST_LINE..LAST_LINE + 2 * n + 2] == BlankCells(n + 1)
  {
    assert v[LAST_LINE..LAST_LINE + 2 * n + 2] == v[LAST_LINE..LAST_LINE + 2 * n] + [BLANK, BLK_BACK_WHT_WORD];
  }

  class Display {
    const video: array<Byte>
    var cursor: nat

    ghost predicate Valid()
      reads this
    {
      video.Length == VIDEO_BYTES && cursor < SCREEN_MAX
    }

    ghost function Abs(): Screen
      reads this, video
    {
      Screen(video[..], cursor)
    }

    constructor (video: array<Byte>)
      requires video.Length == VIDEO_BYTES
      ensures Valid() && this.video == video && cursor == 0
    {
      this.video := video;
      cursor := 0;
    }

    /** The byte loop of memcpy, for any two regions. When the destination starts inside the source, the bytes up to it
        repeat; otherwise every byte is read before it is overwritten. */
    method Memcpy(dst: nat, src: nat, size: nat)
      requires dst + size <= video.Length && src + size <= video.Length
      modifies video
      ensures forall k | 0 <= k < size :: video[dst + k] == old(video[..])[src + Origin(dst, src, k)]
      ensures forall k | 0 <= k < video.Length && !(dst <= k < dst + size) :: video[k] == old(video[k])
      ensures dst <= src || src + size <= dst ==> video[dst..dst + size] == old(video[src..src + size])
    {
      hide Origin, Copied;
      ghost var was := video[..];
      CopiedNone(was, dst, src);
      for i := 0 to size
        invariant Copied(was, video[..], dst, src, i)
      {
        CopyOne(was, video[..], dst, src, i);
        ghost var now := video[..];
        video[dst + i] := video[src + i];
        assert video[..] == now[dst + i := now[src + i]];
      }
      CopiedBytes(was, video[..], dst, src, size);
    }

    method CleanLastLine()
      requires video.Length == VIDEO_BYTES
      modifies video
      ensures video[..] == old(video[..LAST_LINE]) + BlankCells(COLS)
    {
      hide BlankCells;
      var offset := LAST_LINE;
      assert video[LAST_LINE..offset] == BlankCells(0);
      for i := 0 to COLS
        invariant offset == LAST_LINE + 2 * i
        invariant video[..LAST_LINE] == old(video[..LAST_LINE])
        invariant video[..][LAST_LINE..offset] == BlankCells(i)
      {
        video[offset] := BLANK;
        offset := offset + 1;
        video[offset] := BLK_BACK_WHT_WORD;
        offset := offset + 1;
        BlankOneMore(video[..], i);
      }
      assert video[..] == video[..LAST_LINE] + video[LAST_LINE..VIDEO_BYTES];
    }

    /** CHECK_OUT_OF_SCREEN, then set_cursor */
    method CheckOutOfScreen(next: nat)
      requires video.Length == VIDEO_BYTES
      modifies this`cursor, video
      ensures Abs() == MoveTo(old(video[..]), next)
    {
      var nextCurPos := next;
      if nextCurPos >= SCREEN_MAX {
        ghost var was := video[..];
        Memcpy(0, 2 * COLS, LAST_LINE);
        assert video[..LAST_LINE] == was[2 * COLS..];
        CleanLastLine();
        nextCurPos := SCREEN_MAX - COLS;
      }
      cursor := nextCurPos;
    }

    /** put_char. False is the backspace at the first cell, whose store lies outside video memory. */
    method PutChar(c: Byte) returns (ok: bool)
      requires Valid()
      modifies this`cursor, video
      ensures ok <==> !OffScreen(old(Abs()), c)
      ensures ok ==> Valid() && Abs() == Terminal.PutChar(old(Abs()), c)
    {
      if !OffScreen(Abs(), c) {
        PutCharValid(Abs(), c);
      }
      if c == CARRIAGE_RETURN || c == LINE_FEED {
        CheckOutOfScreen(cursor - cursor % COLS + COLS);
      } else if c == BACKSPACE {
        if cursor == 0 {
          return false;
        }
        var offset := (cursor - 1) * 2;
        video[offset] := BLANK;
        video[offset + 1] := BLK_BACK_WHT_WORD;
        cursor := cursor - 1;
      } else {
        var offset := cursor * 2;
        video[offset] := c;
        video[offset + 1] := BLK_BACK_WHT_WORD;
        CheckOutOfScreen(cursor + 1);
      }
      return true;
    }

    /** put_str, up to the terminating zero */
    method PutStr(message: seq<Byte>) returns (ok: bool)
      requires Valid()
      modifies this`cursor, video
      ensures ok <==> !RunsOff(old(Abs()), message)
      ensures ok ==> Valid() && Abs() == Terminal.PutStr(old(Abs()), message)
    {
      ghost var start := Abs();
      var i := 0;
      while i < |message|
        invariant i <= |message| && Valid()
        invariant RunsOff(start, message) == RunsOff(Abs(), message[i..])
        invariant !RunsOff(start, message) ==> Terminal.PutStr(start, message) == Terminal.PutStr(Abs(), message[i..])
      {
        assert message[i..][0] == message[i] && message[i..][1..] == message[i + 1..];
        var fine := PutChar(message[i]);
        if !fine {
          return false;
        }
        i := i + 1;
      }
      return true;
    }
  }
}

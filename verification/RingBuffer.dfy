/** The 64-slot ring of the I/O queue and its meaning as a bounded FIFO. */
module RingBuffers {

  type Byte = nat

  const BUF_SIZE: nat := 64

  /** `put` and `got` record the bytes accepted and returned so far. */
  datatype Ring = Ring(buf: seq<Byte>, head: nat, tail: nat, put: seq<Byte>, got: seq<Byte>)

  function NextPos(pos: nat): nat {
    (pos + 1) % BUF_SIZE
  }

  predicate Indexed(q: Ring) {
    |q.buf| == BUF_SIZE && q.head < BUF_SIZE && q.tail < BUF_SIZE
  }

  predicate Full(q: Ring) {
    NextPos(q.head) == q.tail
  }

  predicate Empty(q: Ring) {
    q.head == q.tail
  }

  function Push(q: Ring, b: Byte): Ring
    requires q.head < |q.buf|
  {
    q.(buf := q.buf[q.head := b], head := NextPos(q.head), put := q.put + [b])
  }

  function Pop(q: Ring): Ring
    requires q.tail < |q.buf|
  {
    q.(tail := NextPos(q.tail), got := q.got + [q.buf[q.tail]])
  }

  // ----- meaning -----

  function Pending(q: Ring): nat
    requires q.head < BUF_SIZE && q.tail < BUF_SIZE
  {
    if q.tail <= q.head then q.head - q.tail else q.head + BUF_SIZE - q.tail
  }

  function Slot(tail: nat, i: nat): nat {
    if tail + i < BUF_SIZE then tail + i else tail + i - BUF_SIZE
  }

  /** The bytes between tail and head, across the wrap, are the ones put and not yet got, in order. */
  ghost predicate Fifo(q: Ring) {
    && Indexed(q)
    && |q.put| == |q.got| + Pending(q)
    && q.got == q.put[..|q.got|]
    && forall i | 0 <= i < Pending(q) :: q.buf[Slot(q.tail, i)] == q.put[|q.got| + i]
  }

  /** Accepting a byte when not full appends it and overwrites no unread one. */
  lemma PushKeeps(q: Ring, b: Byte)
    requires Fifo(q) && !Full(q)
    ensures Fifo(Push(q, b)) && Pending(Push(q, b)) == Pending(q) + 1
    ensures Push(q, b).put == q.put + [b] && Push(q, b).got == q.got && Push(q, b).tail == q.tail
  {
    assert forall i | 0 <= i < Pending(q) :: Slot(q.tail, i) != q.head;
  }

  /** Taking a byte when not empty yields the oldest unread one. */
  lemma PopKeeps(q: Ring)
    requires Fifo(q) && !Empty(q)
    ensures Fifo(Pop(q)) && Pending(Pop(q)) == Pending(q) - 1
    ensures Pop(q).got == q.got + [q.put[|q.got|]] && Pop(q).put == q.put && Pop(q).buf == q.buf
            && Pop(q).head == q.head
  {
    var q' := Pop(q);
    assert q.buf[Slot(q.tail, 0)] == q.put[|q.got|];
    assert forall i | 0 <= i < Pending(q') :: Slot(q'.tail, i) == Slot(q.tail, i + 1);
  }

  /** What the two tests mean: one slot always stays free. */
  lemma Capacity(q: Ring)
    requires Fifo(q)
    ensures Pending(q) <= BUF_SIZE - 1
    ensures Full(q) <==> Pending(q) == BUF_SIZE - 1
    ensures Empty(q) <==> q.put == q.got
  {
  }

  /** The buffer as the C code keeps it: a fixed array and two indices, changed in place. */
  class IoRing {
    const buf: array<Byte>
    var head: nat
    var tail: nat
    ghost var put: seq<Byte>
    ghost var got: seq<Byte>

    ghost predicate Valid()
      reads this, buf
    {
      Fifo(Abs())
    }

    ghost function Abs(): Ring
      reads this, buf
    {
      Ring(buf[..], head, tail, put, got)
    }

    /** The unread bytes, oldest first. */
    ghost function Contents(): (s: seq<Byte>)
      requires Valid()
      reads this, buf
      ensures |s| < BUF_SIZE && put == got + s
    {
      put[|got|..]
    }

    /** ioqueue_init */
    constructor ()
      ensures Valid() && fresh(buf) && Contents() == [] && put == []
    {
      buf := new Byte[BUF_SIZE](_ => 0);
      head, tail := 0, 0;
      put, got := [], [];
    }

    method IsFull() returns (r: bool)
      requires Valid()
      ensures r <==> |Contents()| == BUF_SIZE - 1
      ensures r <==> Full(Abs())
    {
      Capacity(Abs());
      r := NextPos(head) == tail;
    }

    method IsEmpty() returns (r: bool)
      requires Valid()
      ensures r <==> Contents() == []
      ensures r <==> Empty(Abs())
    {
      Capacity(Abs());
      r := head == tail;
    }

    /** The end of ioq_putchar, after its waiting loop. */
    method PutByte(b: Byte)
      requires Valid() && |Contents()| < BUF_SIZE - 1
      modifies this, buf
      ensures Valid() && Contents() == old(Contents()) + [b] && got == old(got)
      ensures Abs() == Push(old(Abs()), b)
    {
      Capacity(Abs());
      PushKeeps(Abs(), b);
      buf[head] := b;
      head := NextPos(head);
      put := put + [b];
    }

    /** The end of ioq_getchar, after its waiting loop. */
    method GetByte() returns (b: Byte)
      requires Valid() && Contents() != []
      modifies this
      ensures Valid() && [b] + Contents() == old(Contents()) && got == old(got) + [b] && put == old(put)
      ensures Abs() == Pop(old(Abs()))
    {
      Capacity(Abs());
      PopKeeps(Abs());
      b := buf[tail];
      tail := NextPos(tail);
      got := got + [b];
    }
  }
}

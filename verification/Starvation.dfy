/** How long a ready thread waits when nothing blocks, wakes or is created: an exact count of slice expiries. */
module Starvation {
  import opened Options
  import opened Scheduling
  import Lists = IntrusiveLists

  /** The running thread heads the queue of the smallest priority in use. */
  ghost predicate Headed(s: Sched) {
    && Inv(s) && TopPriority(s)
    && s.rq[Prio(s, s.running)] != [] && s.rq[Prio(s, s.running)][0] == s.running
  }

  /** One slice expiry, as the timer triggers it. */
  function Slice(s: Sched): Option<Sched>
    requires Shape(s)
  {
    MainSchedule(s.(need := true))
  }

  function Next(p: nat): nat {
    (p + 1) % PRIO_NUM
  }

  function Demoted(s: Sched): map<Tid, Tcb>
    requires Shape(s)
  {
    var p := Next(Prio(s, s.running));
    s.tcb[s.running := Tcb(Ready, p, TicksGet(p))]
  }

  lemma ExpireRotates(s: Sched)
    requires Headed(s)
    ensures var p := Prio(s, s.running);
            && Expire(s).rq == s.rq[p := s.rq[p][1..]][Next(p) := s.rq[Next(p)] + [s.running]]
            && Expire(s).tcb == Demoted(s)
  {
    Lists.WithoutAt(s.rq[Prio(s, s.running)], 0);
  }

  /** A slice expiry moves the running thread from the head of its queue to the back of the next one, with a new
      allowance, and the head of the smallest queue in use runs. */
  lemma SliceRotates(s: Sched)
    requires Headed(s)
    ensures Slice(s).Some?
    ensures var p, s' := Prio(s, s.running), Slice(s).value;
            && Headed(s') && !s'.need
            && s'.rq == s.rq[p := s.rq[p][1..]][Next(p) := s.rq[Next(p)] + [s.running]]
            && s'.running in s.tcb
            && s'.tcb == Demoted(s)[s'.running := Demoted(s)[s'.running].(status := Running)]
            && s'.tcb[s.running].prio == Next(p)
            && 3 * (s'.tcb[s.running].ticks - 1) <= Next(p) < 3 * s'.tcb[s.running].ticks
  {
    hide QueuedBut;
    ExpireRotates(s);
    var e := s.(need := false);
    ExpireKeeps(e);
    assert Expire(e) == Expire(s).(need := false);
    DispatchKeeps(Expire(e));
  }

  // ----- the waiting time -----

  function Below(rq: seq<seq<Tid>>, q: nat, k: nat): nat
    requires k <= q < |rq|
  {
    if k == 0 then 0 else Below(rq, q, k - 1) + (q - (k - 1)) * |rq[k - 1]|
  }

  function Position(s: seq<Tid>, t: Tid): (i: nat)
    requires t in s
    ensures i < |s| && s[i] == t && t !in s[..i]
  {
    if s[0] == t then 0 else 1 + Position(s[1..], t)
  }

  /** Every thread at a smaller priority p costs q - p expiries; a thread ahead in the same queue costs one, or a whole
      round of 32 when the priority wraps. */
  function WaitIn(rq: seq<seq<Tid>>, q: nat, t: Tid): nat
    requires q < |rq| == PRIO_NUM && t in rq[q]
  {
    Below(rq, q, q) + Position(rq[q], t) * (if q < PRIO_NUM - 1 then 1 else PRIO_NUM)
  }

  function Wait(s: Sched, t: Tid): nat
    requires Shape(s) && t in s.tcb && t in s.rq[Prio(s, t)]
  {
    WaitIn(s.rq, Prio(s, t), t)
  }

  lemma {:induction false} BelowSame(a: seq<seq<Tid>>, b: seq<seq<Tid>>, q: nat, k: nat)
    requires |a| == |b| && k <= q < |a| && forall p | 0 <= p < k :: |a[p]| == |b[p]|
    ensures Below(a, q, k) == Below(b, q, k)
  {
    if k > 0 {
      BelowSame(a, b, q, k - 1);
    }
  }

  lemma {:induction false} BelowGrows(a: seq<seq<Tid>>, b: seq<seq<Tid>>, q: nat, k: nat, p: nat)
    requires |a| == |b| && k <= q < |a| && p < |a|
    requires |b[p]| == |a[p]| + 1 && forall i | 0 <= i < |a| && i != p :: |a[i]| == |b[i]|
    ensures Below(b, q, k) == Below(a, q, k) + if p < k then q - p else 0
  {
    if k > 0 {
      if p == k - 1 {
        BelowSame(a, b, q, k - 1);
        assert (q - p) * (|a[p]| + 1) == (q - p) * |a[p]| + (q - p);
      } else {
        BelowGrows(a, b, q, k - 1, p);
      }
    }
  }

  lemma {:induction false} BelowZero(rq: seq<seq<Tid>>, q: nat, k: nat)
    requires k <= q < |rq|
    ensures Below(rq, q, k) == 0 <==> forall p | 0 <= p < k :: rq[p] == []
  {
    if k > 0 {
      BelowZero(rq, q, k - 1);
      if rq[k - 1] != [] {
        assert (q - (k - 1)) * |rq[k - 1]| >= 1 by {
          MulPositive(q - (k - 1), |rq[k - 1]|);
        }
      }
    }
  }

  lemma MulPositive(x: nat, y: nat)
    requires x > 0 && y > 0
    ensures x * y > 0
  {
  }

  /** Nothing left to wait for is the same as running. */
  lemma WaitZero(s: Sched, t: Tid)
    requires Headed(s) && Live(s, t)
    ensures t in s.rq[Prio(s, t)]
    ensures Wait(s, t) == 0 <==> s.running == t
  {
    var q := Prio(s, t);
    BelowZero(s.rq, q, q);
  }

  lemma RotationCost(rq: seq<seq<Tid>>, rq': seq<seq<Tid>>, p: nat, q: nat, t: Tid)
    requires |rq| == PRIO_NUM && p <= q < PRIO_NUM && rq[p] != [] && t in rq[q] && (p == q ==> t != rq[p][0])
    requires rq' == rq[p := rq[p][1..]][Next(p) := rq[Next(p)] + [rq[p][0]]]
    ensures t in rq'[q] && WaitIn(rq', q, t) == WaitIn(rq, q, t) - 1
  {
    hide Below, Position;
    var mid := rq[p := rq[p][1..]];
    BelowGrows(mid, rq, q, q, p);
    BelowGrows(mid, rq', q, q, Next(p));
    if p == q {
      PositionStep(rq[q], t);
    } else if Next(p) == q {
      PositionAppend(rq[q], rq[p][0], t);
    }
  }

  lemma PositionStep(s: seq<Tid>, t: Tid)
    requires t in s && t != s[0]
    ensures t in s[1..] && Position(s, t) == 1 + Position(s[1..], t)
  {
  }

  lemma QueuedAbove(s: Sched, t: Tid)
    requires Headed(s) && Live(s, t)
    ensures t in s.rq[Prio(s, t)] && Prio(s, s.running) <= Prio(s, t)
  {
    assert Prio(s, t) in s.mask;
  }

  /** One expiry brings a waiting thread exactly one expiry nearer. */
  lemma WaitDrops(s: Sched, t: Tid)
    requires Headed(s) && Live(s, t) && t != s.running
    ensures Slice(s).Some?
    ensures var s' := Slice(s).value;
            && Headed(s') && Live(s', t) && t in s.rq[Prio(s, t)] && t in s'.rq[Prio(s', t)]
            && Wait(s', t) == Wait(s, t) - 1
  {
    hide QueuedBut;
    SliceRotates(s);
    QueuedAbove(s, t);
    RotationCost(s.rq, Slice(s).value.rq, Prio(s, s.running), Prio(s, t), t);
  }

  lemma {:induction false} PositionAppend(s: seq<Tid>, r: Tid, t: Tid)
    requires t in s
    ensures t in s + [r] && Position(s + [r], t) == Position(s, t)
  {
    if s[0] != t {
      assert (s + [r])[1..] == s[1..] + [r];
      PositionAppend(s[1..], r, t);
    }
  }

  /** The state after n expiries. */
  function Slices(s: Sched, n: nat): Option<Sched>
    requires Shape(s)
    decreases n
  {
    if n == 0 then Some(s)
    else match Slice(s)
      case None => None
      case Some(s') => if Shape(s') then Slices(s', n - 1) else None
  }

  /** The starvation bound is exact: t is first dispatched after Wait(s, t) expiries, no sooner and no later. */
  lemma {:induction false} DispatchedExactly(s: Sched, t: Tid, k: nat)
    requires Headed(s) && Live(s, t)
    requires t in s.rq[Prio(s, t)] && k <= Wait(s, t)
    ensures Slices(s, k).Some? && (Slices(s, k).value.running == t <==> k == Wait(s, t))
    decreases k
  {
    hide Slice, WaitIn, Queued;
    WaitZero(s, t);
    if k > 0 {
      WaitDrops(s, t);
      DispatchedExactly(Slice(s).value, t, k - 1);
    }
  }

  // ----- how large the bound can be -----

  function Total(rq: seq<seq<Tid>>, k: nat): nat
    requires k <= |rq|
  {
    if k == 0 then 0 else Total(rq, k - 1) + |rq[k - 1]|
  }

  ghost function LiveSet(s: Sched): set<Tid> {
    set t | t in s.tcb && Live(s, t)
  }

  lemma {:induction false} BelowBound(rq: seq<seq<Tid>>, q: nat, k: nat)
    requires k <= q < |rq| && q <= 31
    ensures Below(rq, q, k) <= 32 * Total(rq, k)
  {
    if k > 0 {
      BelowBound(rq, q, k - 1);
      MulUp(q - (k - 1), 32, |rq[k - 1]|);
    }
  }

  lemma MulUp(x: nat, y: nat, z: nat)
    requires x <= y
    ensures x * z <= y * z
  {
  }

  lemma {:induction false} TotalGrows(rq: seq<seq<Tid>>, j: nat, k: nat)
    requires j < k <= |rq|
    ensures Total(rq, j) + |rq[j]| <= Total(rq, k)
  {
    if j < k - 1 {
      TotalGrows(rq, j, k - 1);
    }
  }

  function Elems(s: seq<Tid>): set<Tid> {
    set t | t in s
  }

  ghost function LiveBelow(s: Sched, k: nat): set<Tid> {
    set t | t in s.tcb && Live(s, t) && s.tcb[t].prio < k
  }

  lemma QueueMembers(s: Sched, p: nat)
    requires Inv(s) && p < PRIO_NUM
    ensures Lists.Distinct(s.rq[p]) && forall t :: t in s.rq[p] <==> Live(s, t) && s.tcb[t].prio == p
  {
  }

  /** The queue lengths add up to the number of live threads. */
  lemma {:induction false} TotalCounts(s: Sched, k: nat)
    requires Inv(s) && k <= PRIO_NUM
    ensures Total(s.rq, k) == |LiveBelow(s, k)|
  {
    hide QueuedBut;
    if k == 0 {
      assert LiveBelow(s, k) == {};
    } else {
      TotalCounts(s, k - 1);
      QueueMembers(s, k - 1);
      DistinctSize(s.rq[k - 1]);
      assert LiveBelow(s, k) == LiveBelow(s, k - 1) + Elems(s.rq[k - 1]);
      assert LiveBelow(s, k - 1) !! Elems(s.rq[k - 1]);
    }
  }

  lemma {:induction false} DistinctSize(s: seq<Tid>)
    requires Lists.Distinct(s)
    ensures |Elems(s)| == |s|
  {
    if s == [] {
      assert Elems(s) == {};
    } else {
      Lists.TailDistinct(s);
      DistinctSize(s[1..]);
      assert s == [s[0]] + s[1..];
      assert Elems(s) == {s[0]} + Elems(s[1..]);
    }
  }

  lemma WaitBound(s: Sched, t: Tid)
    requires Headed(s) && Live(s, t)
    ensures t in s.rq[Prio(s, t)] && Wait(s, t) <= 32 * (|LiveSet(s)| - 1)
  {
    var q := Prio(s, t);
    assert Total(s.rq, PRIO_NUM) == |LiveSet(s)| by {
      TotalCounts(s, PRIO_NUM);
      assert LiveSet(s) == LiveBelow(s, PRIO_NUM);
    }
    BelowBound(s.rq, q, q);
    TotalGrows(s.rq, q, PRIO_NUM);
  }

  // ----- the same wait, in timer interrupts -----

  function Ticks(s: Sched, n: nat): Option<Sched>
    requires Shape(s)
    decreases n
  {
    if n == 0 then Some(s)
    else match Tick(s)
      case None => None
      case Some(s') => if Shape(s') then Ticks(s', n - 1) else None
  }

  function WithTicks(s: Sched, n: nat): Sched
    requires Shape(s)
  {
    s.(tcb := s.tcb[s.running := s.tcb[s.running].(ticks := n)])
  }

  /** A demotion overwrites the allowance, so what was left of it does not matter. */
  lemma SliceForgets(s: Sched, n: nat)
    requires Headed(s)
    ensures Slice(WithTicks(s, n)) == Slice(s)
  {
    hide QueuedBut;
    var d := s.(need := false);
    assert Expire(WithTicks(d, n)).tcb == Expire(d).tcb;
  }

  /** A slice lasts one interrupt for every tick of the allowance and one more. */
  lemma {:induction false} SliceLasts(s: Sched)
    requires Headed(s) && !s.need
    ensures Ticks(s, s.tcb[s.running].ticks + 1) == Slice(s)
    decreases s.tcb[s.running].ticks
  {
    hide QueuedBut, Expire, Dispatch;
    var n := s.tcb[s.running].ticks;
    SliceRotates(s);
    if n > 0 {
      var s' := WithTicks(s, n - 1);
      StillHeaded(s, n - 1);
      assert Tick(s) == Some(s');
      SliceLasts(s');
      SliceForgets(s, n - 1);
    } else {
      assert Tick(s) == Slice(s);
      assert Ticks(Slice(s).value, 0) == Slice(s);
    }
  }

  /** Up to the end of the allowance every interrupt takes one tick. */
  lemma {:induction false} TicksCount(s: Sched, n: nat)
    requires Headed(s) && !s.need && n <= s.tcb[s.running].ticks
    ensures Ticks(s, n) == Some(WithTicks(s, s.tcb[s.running].ticks - n))
    decreases n
  {
    hide QueuedBut, MainSchedule;
    var c := s.tcb[s.running].ticks;
    if n == 0 {
      assert s.tcb[s.running := s.tcb[s.running].(ticks := c)] == s.tcb;
    } else {
      StillHeaded(s, c - 1);
      NoSwitch(s);
      TicksCount(WithTicks(s, c - 1), n - 1);
      assert WithTicks(WithTicks(s, c - 1), c - n).tcb == WithTicks(s, c - n).tcb;
    }
  }

  lemma NoSwitch(s: Sched)
    requires Shape(s) && !s.need && s.tcb[s.running].ticks > 0
    ensures Tick(s) == Some(WithTicks(s, s.tcb[s.running].ticks - 1))
  {
  }

  /** With a fresh slice at priority p a thread is demoted by timer interrupt number p / 3 + 2 and by none before. */
  lemma FreshSlice(s: Sched, n: nat)
    requires Headed(s) && !s.need
    requires var c := s.tcb[s.running]; 3 * (c.ticks - 1) <= c.prio < 3 * c.ticks
    requires n <= s.tcb[s.running].prio / 3 + 2
    ensures Ticks(s, n).Some?
    ensures var r, p, s' := s.running, s.tcb[s.running].prio, Ticks(s, n).value;
            if n < p / 3 + 2 then s'.running == r && s'.rq == s.rq && r in s'.tcb && s'.tcb[r].prio == p
            else Rotated(s, s')
  {
    hide QueuedBut, MainSchedule, Rotated;
    var c := s.tcb[s.running];
    assert c.ticks == c.prio / 3 + 1;
    if n < c.prio / 3 + 2 {
      TicksCount(s, n);
    } else {
      SliceLasts(s);
      MainScheduleKeeps(s.(need := true));
      DueAnyway(s, Slice(s).value);
    }
  }

  lemma DueAnyway(s: Sched, s': Sched)
    requires Shape(s) && Rotated(s.(need := true), s')
    ensures Rotated(s, s')
  {
  }

  lemma StillHeaded(s: Sched, n: nat)
    requires Headed(s)
    ensures Headed(WithTicks(s, n))
  {
    hide QueuedBut;
    assert forall u :: LiveIn(WithTicks(s, n).tcb, u) <==> Live(s, u);
    Relabel(s, WithTicks(s, n).tcb);
  }

  lemma {:induction false} TicksCompose(s: Sched, m: nat, n: nat)
    requires Shape(s) && Ticks(s, m).Some? && Shape(Ticks(s, m).value)
    ensures Ticks(s, m + n) == Ticks(Ticks(s, m).value, n)
    decreases m
  {
    hide Tick;
    if m > 0 {
      TicksCompose(Tick(s).value, m - 1, n);
    }
  }

  const MAX_TICKS: nat := 11

  lemma AllowedIsShort(s: Sched)
    requires Shape(s) && Allowed(s)
    ensures forall u | u in s.tcb :: s.tcb[u].ticks <= MAX_TICKS
  {
  }

  /** With no slice longer than the scheduler hands out, t runs within twelve interrupts for every expiry it waits. */
  lemma {:induction false} DispatchedWithin(s: Sched, t: Tid) returns (n: nat)
    requires Headed(s) && !s.need && Live(s, t) && t in s.rq[Prio(s, t)]
    requires forall u | u in s.tcb :: s.tcb[u].ticks <= MAX_TICKS
    ensures n <= (MAX_TICKS + 1) * Wait(s, t)
    ensures Ticks(s, n).Some? && Ticks(s, n).value.running == t
    decreases Wait(s, t)
  {
    hide Wait, Slice, Tick, Queued;
    WaitZero(s, t);
    if s.running == t {
      return 0;
    }
    WaitDrops(s, t);
    SliceLasts(s);
    SliceAllowance(s);
    var m := s.tcb[s.running].ticks + 1;
    var rest := DispatchedWithin(Slice(s).value, t);
    TicksCompose(s, m, rest);
    n := m + rest;
  }

  lemma SliceAllowance(s: Sched)
    requires Headed(s) && forall u | u in s.tcb :: s.tcb[u].ticks <= MAX_TICKS
    ensures Slice(s).Some? && !Slice(s).value.need
    ensures forall u | u in Slice(s).value.tcb :: Slice(s).value.tcb[u].ticks <= MAX_TICKS
  {
    hide Slice, QueuedBut;
    SliceRotates(s);
  }
}

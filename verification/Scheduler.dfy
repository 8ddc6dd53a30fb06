/** The feedback scheduler as a state machine on values: 32 ready queues, a mask that indexes the non-empty ones, and
    the task control blocks. Code that runs with interrupts disabled is one function here. */
module Scheduling {
  import opened Options
  import opened Bitmaps
  import Lists = IntrusiveLists

  const PRIO_NUM: nat := 32

  type Tid = nat

  datatype Status = Running | Ready | Blocked | Waiting | Hanging | Died

  datatype Tcb = Tcb(status: Status, prio: nat, ticks: nat)

  datatype Sched = Sched(running: Tid, need: bool, rq: seq<seq<Tid>>, mask: set<nat>, tcb: map<Tid, Tcb>)

  function TicksGet(prio: nat): nat {
    prio / 3 + 1
  }

  predicate LiveIn(tcb: map<Tid, Tcb>, t: Tid) {
    t in tcb && (tcb[t].status.Running? || tcb[t].status.Ready?)
  }

  predicate Live(s: Sched, t: Tid) {
    LiveIn(s.tcb, t)
  }

  predicate Shape(s: Sched) {
    && |s.rq| == PRIO_NUM
    && s.running in s.tcb
    && (forall t | t in s.tcb :: s.tcb[t].prio < PRIO_NUM)
    && (forall p | p in s.mask :: p < PRIO_NUM)
  }

  function Prio(s: Sched, t: Tid): nat
    requires t in s.tcb
  {
    s.tcb[t].prio
  }

  // ----- the operations of thread.c -----

  function JoinOnly(s: Sched, t: Tid): Sched
    requires Shape(s) && t in s.tcb
  {
    var p := Prio(s, t);
    s.(rq := s.rq[p := s.rq[p] + [t]], mask := s.mask + {p})
  }

  function JumpOnly(s: Sched, t: Tid): Sched
    requires Shape(s) && t in s.tcb
  {
    var p := Prio(s, t);
    s.(rq := s.rq[p := [t] + s.rq[p]], mask := s.mask + {p})
  }

  /** The check that ends both scheduler_rq_join and scheduler_rq_jump. */
  function Outrank(s: Sched, t: Tid): Sched
    requires Shape(s) && t in s.tcb
  {
    s.(need := s.need || Prio(s, s.running) > Prio(s, t))
  }

  function Join(s: Sched, t: Tid): Sched
    requires Shape(s) && t in s.tcb
  {
    Outrank(JoinOnly(s, t), t)
  }

  function Jump(s: Sched, t: Tid): Sched
    requires Shape(s) && t in s.tcb
  {
    Outrank(JumpOnly(s, t), t)
  }

  /** list_remove takes the thread out of the queue that has it, its priority's; an emptied queue loses its mask bit. */
  function LeaveOnly(s: Sched, t: Tid): Sched
    requires Shape(s) && t in s.tcb
  {
    var p := Prio(s, t);
    var q := Lists.Without(s.rq[p], t);
    s.(rq := s.rq[p := q], mask := if q == [] then s.mask - {p} else s.mask)
  }

  function Leave(s: Sched, t: Tid): Sched
    requires Shape(s) && t in s.tcb
  {
    var s' := LeaveOnly(s, t);
    s'.(need := s.need || t == s.running)
  }

  function SetStatus(s: Sched, t: Tid, status: Status): Sched
    requires t in s.tcb
  {
    s.(tcb := s.tcb[t := s.tcb[t].(status := status)])
  }

  /** The demotion of a thread whose slice is over: out of its queue, priority one on modulo 32, in at the back. */
  function Expire(s: Sched): Sched
    requires Shape(s)
  {
    var cur := s.running;
    var s1 := LeaveOnly(s, cur);
    var p := (Prio(s, cur) + 1) % PRIO_NUM;
    var s2 := JoinOnly(s1.(tcb := s1.tcb[cur := s1.tcb[cur].(prio := p)]), cur);
    s2.(tcb := s2.tcb[cur := Tcb(Ready, p, TicksGet(p))])
  }

  function Highest(s: Sched): int {
    FirstFit(s.mask, PRIO_NUM, 1, 1)
  }

  /** next_thread_pick and the hand-over. With an empty mask the C code would index the queues with -1: no result. */
  function Dispatch(s: Sched): Option<Sched>
    requires Shape(s)
  {
    var p := Highest(s);
    if p < 0 || p >= PRIO_NUM || s.rq[p] == [] || s.rq[p][0] !in s.tcb then None
    else Some(SetStatus(s, s.rq[p][0], Running).(running := s.rq[p][0]))
  }

  function MainSchedule(s: Sched): Option<Sched>
    requires Shape(s)
  {
    if !s.need then Some(s)
    else
      var s1 := s.(need := false);
      Dispatch(if s.tcb[s.running].status.Running? then Expire(s1) else s1)
  }

  /** thread_block up to the switch: the running thread gives up the processor with the given status. */
  function Block(s: Sched, status: Status): Option<Sched>
    requires Shape(s)
  {
    MainSchedule(Leave(SetStatus(s, s.running, status), s.running))
  }

  /** thread_unblock after its assertion. */
  function Unblock(s: Sched, t: Tid): Sched
    requires Shape(s) && t in s.tcb
  {
    Jump(SetStatus(s, t, Ready), t)
  }

  /** thread_run's effect on the scheduler: a new ready thread joins its queue. */
  function Create(s: Sched, t: Tid, prio: nat): Sched
    requires Shape(s) && t !in s.tcb && prio < PRIO_NUM
  {
    Join(s.(tcb := s.tcb[t := Tcb(Ready, prio, TicksGet(prio))]), t)
  }

  /** intr_timer_handler on the fields the scheduler reads. */
  function TimerHandler(s: Sched): Sched
    requires Shape(s)
  {
    var c := s.tcb[s.running];
    if c.ticks == 0 then s.(need := true)
    else s.(tcb := s.tcb[s.running := c.(ticks := c.ticks - 1)])
  }

  /** A timer interrupt: handler, then the interrupt tail. */
  function Tick(s: Sched): Option<Sched>
    requires Shape(s)
  {
    MainSchedule(TimerHandler(s))
  }

  // ----- the invariant -----

  /** The queues are right for every thread outside `out`, and hold none of those. */
  ghost predicate QueuedBut(rq: seq<seq<Tid>>, mask: set<nat>, tcb: map<Tid, Tcb>, out: set<Tid>) {
    && |rq| == PRIO_NUM
    && (forall p | 0 <= p < PRIO_NUM :: p in mask <==> rq[p] != [])
    && (forall p, t | 0 <= p < PRIO_NUM && t in rq[p] :: t !in out && LiveIn(tcb, t) && tcb[t].prio == p)
    && (forall p | 0 <= p < PRIO_NUM :: Lists.Distinct(rq[p]))
    && (forall t | LiveIn(tcb, t) && t !in out :: tcb[t].prio < PRIO_NUM && t in rq[tcb[t].prio])
  }

  ghost predicate Queued(s: Sched) {
    QueuedBut(s.rq, s.mask, s.tcb, {})
  }

  ghost predicate QueuedWithout(s: Sched, t: Tid) {
    QueuedBut(s.rq, s.mask, s.tcb, {t})
  }

  ghost predicate TopPriority(s: Sched)
    requires s.running in s.tcb
  {
    forall p | p in s.mask :: s.tcb[s.running].prio <= p
  }

  /** Every RUNNING or READY thread is in exactly one queue, once, its priority's; the mask says which queues are
      non-empty; exactly one thread is RUNNING; and it has the smallest priority in use unless a switch is due. */
  ghost predicate Inv(s: Sched) {
    && Shape(s) && Queued(s)
    && s.tcb[s.running].status.Running?
    && (forall t | t in s.tcb && s.tcb[t].status.Running? :: t == s.running)
    && (s.need || TopPriority(s))
  }

  // ----- what the operations come to, field by field -----

  /** The mask says which queues are not empty. */
  ghost predicate Masked(s: Sched) {
    forall p: nat :: p in s.mask <==> p < |s.rq| && s.rq[p] != []
  }

  /** The running thread heads the non-empty queue of smallest index. */
  ghost predicate AtHead(s: Sched) {
    exists p: nat | p < |s.rq| :: s.rq[p] != [] && s.rq[p][0] == s.running && forall q: nat | q < p :: s.rq[q] == []
  }

  /** The running thread gave up the processor: it left its queue, with its priority and slice as they were, and the
      head of the smallest queue runs. */
  ghost predicate GaveUp(s: Sched, s': Sched, status: Status)
    requires Shape(s)
  {
    var r, n, p := s.running, s'.running, s.tcb[s.running].prio;
    && n in s.tcb && n != r && !s'.need && AtHead(s') && Masked(s')
    && s'.rq == s.rq[p := Lists.Without(s.rq[p], r)]
    && s'.tcb == s.tcb[r := s.tcb[r].(status := status)][n := s.tcb[n].(status := Running)]
  }

  /** Thread t was woken: it goes to the front of its priority's queue, with its slice as it was. */
  ghost predicate WokenUp(s: Sched, s': Sched, t: Tid)
    requires Shape(s) && t in s.tcb
  {
    var p := s.tcb[t].prio;
    && s'.running == s.running && Masked(s')
    && (s'.need <==> s.need || p < s.tcb[s.running].prio)
    && s'.rq == s.rq[p := [t] + s.rq[p]] && s'.tcb == s.tcb[t := s.tcb[t].(status := Ready)]
  }

  /** Thread t is new: it goes to the back of its priority's queue, with a tick for every three priorities begun. */
  ghost predicate CameIn(s: Sched, s': Sched, t: Tid, prio: nat)
    requires Shape(s) && prio < PRIO_NUM
  {
    && s'.running == s.running && Masked(s')
    && (s'.need <==> s.need || prio < s.tcb[s.running].prio)
    && s'.rq == s.rq[prio := s.rq[prio] + [t]]
    && t in s'.tcb && 3 * (s'.tcb[t].ticks - 1) <= prio < 3 * s'.tcb[t].ticks
    && s'.tcb == s.tcb[t := Tcb(Ready, prio, s'.tcb[t].ticks)]
  }

  /** A switch was due: the running thread goes to the back of the next priority's queue, modulo 32, with a tick for
      every three priorities begun, and the head of the smallest queue runs. */
  ghost predicate Rotated(s: Sched, s': Sched)
    requires Shape(s)
  {
    var r, n, p, q := s.running, s'.running, s.tcb[s.running].prio, (s.tcb[s.running].prio + 1) % 32;
    && n in s.tcb && !s'.need && AtHead(s') && Masked(s')
    && s'.rq == s.rq[p := Lists.Without(s.rq[p], r)][q := s.rq[q] + [r]]
    && r in s'.tcb && 3 * (s'.tcb[r].ticks - 1) <= q < 3 * s'.tcb[r].ticks
    && var tcb := s.tcb[r := Tcb(Ready, q, s'.tcb[r].ticks)];
    s'.tcb == tcb[n := tcb[n].(status := Running)]
  }

  /** No thread has more of its slice left than a tick for every three priorities begun. */
  ghost predicate Allowed(s: Sched) {
    forall t | t in s.tcb :: 3 * (s.tcb[t].ticks - 1) <= s.tcb[t].prio
  }

  /** Between a block or a demotion and the next dispatch no thread is RUNNING. */
  ghost predicate Between(s: Sched) {
    && Shape(s) && Queued(s)
    && forall t | t in s.tcb :: !s.tcb[t].status.Running?
  }

  lemma HighestIsLeast(s: Sched)
    requires forall p | p in s.mask :: p < PRIO_NUM
    ensures Highest(s) == -1 <==> s.mask == {}
    ensures Highest(s) != -1 ==>
              && 0 <= Highest(s) < PRIO_NUM && Highest(s) in s.mask
              && forall p | p in s.mask :: Highest(s) <= p
  {
    FirstFitIsLeast(s.mask, PRIO_NUM, 1, 1, 0);
    forall p: nat | p < PRIO_NUM ensures RunAt(s.mask, p, 1, 1) <==> p in s.mask {
      assert RunAt(s.mask, p, 1, 1) ==> p in s.mask;
    }
  }

  /** Changing control blocks keeps the queues when every thread stays as live as it was, at its priority. */
  lemma Relabel(s: Sched, tcb: map<Tid, Tcb>)
    requires Queued(s)
    requires forall t :: LiveIn(tcb, t) <==> Live(s, t)
    requires forall t | LiveIn(tcb, t) && Live(s, t) :: tcb[t].prio == s.tcb[t].prio
    ensures Queued(s.(tcb := tcb))
  {
  }

  lemma TopIsLive(s: Sched)
    requires Shape(s) && Queued(s)
    ensures s.mask == {} <==> forall t | t in s.tcb :: !Live(s, t)
    ensures s.mask != {} ==>
              var p := Highest(s);
              && p in s.mask && s.rq[p] != [] && Live(s, s.rq[p][0]) && s.tcb[s.rq[p][0]].prio == p
              && forall q | q in s.mask :: p <= q
  {
    HighestIsLeast(s);
    if s.mask != {} {
      var p := Highest(s);
      var t := s.rq[p][0];
      assert t in s.rq[p];
      assert LiveIn(s.tcb, t);
    }
  }

  lemma DispatchKeeps(s: Sched)
    requires Between(s)
    ensures Dispatch(s).None? <==> forall t | t in s.tcb :: !Live(s, t)
    ensures Dispatch(s).Some? ==>
              var s' := Dispatch(s).value;
              && Live(s, s'.running) && s' == SetStatus(s, s'.running, Running).(running := s'.running)
              && Inv(s') && TopPriority(s')
              && Highest(s) in s.mask && s.rq[Highest(s)] != [] && s'.running == s.rq[Highest(s)][0]
              && Prio(s', s'.running) == Highest(s) && AtHead(s') && Masked(s')
              && s' == s.(running := s'.running, tcb := s.tcb[s'.running := s.tcb[s'.running].(status := Running)])
  {
    hide QueuedBut;
    TopIsLive(s);
    HighestIsLeast(s);
    if s.mask != {} {
      var t := s.rq[Highest(s)][0];
      Relabel(s, s.tcb[t := s.tcb[t].(status := Running)]);
      LeastIsHead(s);
    }
  }

  lemma MaskIs(s: Sched)
    requires Shape(s) && Queued(s)
    ensures Masked(s)
  {
  }

  /** The queues below the smallest priority in use are empty. */
  lemma LeastIsHead(s: Sched)
    requires Shape(s) && Queued(s) && s.mask != {}
    ensures 0 <= Highest(s) < PRIO_NUM && s.rq[Highest(s)] != [] && AtHead(s.(running := s.rq[Highest(s)][0]))
            && Masked(s)
  {
    HighestIsLeast(s);
    MaskIs(s);
    var p: nat := Highest(s);
    forall q: nat | q < p ensures s.rq[q] == [] {
      assert q !in s.mask;
    }
  }

  lemma {:induction false} WithoutDistinct<T>(s: seq<T>, e: T)
    requires Lists.Distinct(s)
    ensures Lists.Distinct(Lists.Without(s, e)) && e !in Lists.Without(s, e)
  {
    if s != [] {
      Lists.TailDistinct(s);
      WithoutDistinct(s[1..], e);
      assert Lists.Without(s, e) == if s[0] == e then Lists.Without(s[1..], e) else [s[0]] + Lists.Without(s[1..], e);
      forall i, j | 0 <= i < j < |Lists.Without(s, e)| ensures Lists.Without(s, e)[i] != Lists.Without(s, e)[j] {
        if s[0] != e && i == 0 {
          assert Lists.Without(s[1..], e)[j - 1] in s[1..];
        }
      }
    }
  }

  lemma LeaveOnlyKeeps(s: Sched, t: Tid)
    requires Queued(s) && Shape(s) && t in s.tcb
    ensures QueuedWithout(LeaveOnly(s, t), t)
  {
    WithoutDistinct(s.rq[Prio(s, t)], t);
  }

  lemma JoinOnlyKeeps(s: Sched, t: Tid)
    requires QueuedWithout(s, t) && Shape(s) && Live(s, t)
    ensures Queued(JoinOnly(s, t))
  {
    var p, rq := Prio(s, t), JoinOnly(s, t).rq;
    assert forall x :: x in rq[p] <==> x in s.rq[p] || x == t;
  }

  lemma JumpOnlyKeeps(s: Sched, t: Tid)
    requires QueuedWithout(s, t) && Shape(s) && Live(s, t)
    ensures Queued(JumpOnly(s, t))
  {
    var p, rq := Prio(s, t), JumpOnly(s, t).rq;
    assert forall x :: x in rq[p] <==> x in s.rq[p] || x == t;
  }

  /** A thread that is out of every queue may change its control block. */
  lemma OutMayChange(s: Sched, t: Tid, c: Tcb)
    requires QueuedWithout(s, t)
    ensures QueuedWithout(s.(tcb := s.tcb[t := c]), t)
  {
    assert forall u | u != t :: LiveIn(s.tcb[t := c], u) <==> LiveIn(s.tcb, u);
  }

  /** For a thread that is not live, being out of every queue is what the queues must say anyway. */
  lemma DeadIsOut(s: Sched, t: Tid)
    requires !Live(s, t)
    ensures QueuedWithout(s, t) <==> Queued(s)
  {
  }

  lemma ExpireKeeps(s: Sched)
    requires Inv(s)
    ensures Between(Expire(s)) && Live(Expire(s), s.running)
    ensures Expire(s).tcb == s.tcb[s.running := Expire(s).tcb[s.running]]
    ensures var x, r, p := Expire(s), s.running, Prio(s, s.running);
            var q := (p + 1) % 32;
            && x.running == r && x.need == s.need
            && x.rq == s.rq[p := Lists.Without(s.rq[p], r)][q := s.rq[q] + [r]]
            && x.tcb[r].status.Ready? && x.tcb[r].prio == q
            && 3 * (x.tcb[r].ticks - 1) <= q < 3 * x.tcb[r].ticks
  {
    hide QueuedBut;
    var cur := s.running;
    var s1 := LeaveOnly(s, cur);
    LeaveOnlyKeeps(s, cur);
    var p := (Prio(s, cur) + 1) % PRIO_NUM;
    OutMayChange(s1, cur, s1.tcb[cur].(prio := p));
    OutMayChange(s1, cur, Tcb(Ready, p, TicksGet(p)));
    var s3 := s1.(tcb := s1.tcb[cur := Tcb(Ready, p, TicksGet(p))]);
    JoinOnlyKeeps(s3, cur);
    assert Expire(s) == JoinOnly(s3, cur);
    assert Expire(s).tcb == s.tcb[cur := Tcb(Ready, p, TicksGet(p))];
  }

  /** Between a running state and the next: the same threads, and the same ones live. */
  ghost predicate SameLive(s: Sched, s': Sched) {
    && s'.tcb.Keys == s.tcb.Keys
    && (forall t | t in s.tcb && !Live(s, t) :: s'.tcb[t] == s.tcb[t])
    && (forall t | t in s.tcb :: Live(s', t) <==> Live(s, t))
  }

  /** A demotion and a dispatch make a rotation. */
  lemma Rotates(s: Sched)
    requires Inv(s) && s.need
    ensures MainSchedule(s).Some? && Rotated(s, MainSchedule(s).value)
  {
    hide QueuedBut, Expire, Dispatch, AtHead, Masked;
    ExpireKeeps(s);
    ExpireForgetsNeed(s);
    var x := Expire(s).(need := false);
    DispatchKeeps(x);
    var r, n := s.running, Dispatch(x).value.running;
    assert x.tcb == s.tcb[r := x.tcb[r]];
    assert x.tcb[r] == Tcb(Ready, (Prio(s, r) + 1) % 32, x.tcb[r].ticks);
  }

  lemma ExpireForgetsNeed(s: Sched)
    requires Shape(s)
    ensures Expire(s.(need := false)) == Expire(s).(need := false)
  {
  }

  lemma MainScheduleKeeps(s: Sched)
    requires Inv(s)
    ensures MainSchedule(s).Some? && Inv(MainSchedule(s).value) && SameLive(s, MainSchedule(s).value)
    ensures TopPriority(MainSchedule(s).value)
    ensures if s.need then Rotated(s, MainSchedule(s).value) else MainSchedule(s).value == s
  {
    hide QueuedBut;
    hide Rotated, AtHead, Masked, Expire, Dispatch;
    if s.need {
      var s1 := s.(need := false);
      ExpireKeeps(s);
      ExpireForgetsNeed(s);
      DispatchKeeps(Expire(s1));
      Rotates(s);
    }
  }

  lemma TickKeeps(s: Sched)
    requires Inv(s)
    ensures Tick(s).Some? && Inv(Tick(s).value) && SameLive(s, Tick(s).value)
    ensures var c, s' := s.tcb[s.running], Tick(s).value;
            if c.ticks == 0 || s.need then Rotated(s, s')
            else s' == s.(tcb := s.tcb[s.running := c.(ticks := c.ticks - 1)])
  {
    hide QueuedBut, Rotated, MainSchedule, AtHead, Masked;
    var h := TimerHandler(s);
    assert forall t :: LiveIn(h.tcb, t) <==> Live(s, t);
    Relabel(s, h.tcb);
    MainScheduleKeeps(h);
    if h.need {
      RotatedAnyway(s, h, MainSchedule(h).value);
    }
  }

  /** What was left of the slice does not matter to a rotation. */
  lemma RotatedAnyway(s: Sched, h: Sched, s': Sched)
    requires Shape(s) && Shape(h) && Rotated(h, s')
    requires h.running == s.running && h.rq == s.rq && Prio(h, h.running) == Prio(s, s.running)
    requires h.tcb == s.tcb[s.running := h.tcb[s.running]]
    ensures Rotated(s, s')
  {
    hide AtHead, Masked;
    var r, n := s.running, s'.running;
    var c := Tcb(Ready, (Prio(s, r) + 1) % 32, s'.tcb[r].ticks);
    assert h.tcb[r := c] == s.tcb[r := c];
  }

  lemma BlockKeeps(s: Sched, status: Status)
    requires Inv(s) && !status.Running? && !status.Ready?
    ensures Block(s, status).None? <==> forall t | t in s.tcb && t != s.running :: !Live(s, t)
    ensures Block(s, status).Some? ==>
              var s' := Block(s, status).value;
              && Inv(s') && s'.tcb.Keys == s.tcb.Keys
              && s'.running != s.running && s'.tcb[s.running].status == status
              && TopPriority(s') && s'.rq[Prio(s', s'.running)] != [] && s'.rq[Prio(s', s'.running)][0] == s'.running
              && (forall t | t in s.tcb && !Live(s, t) :: s'.tcb[t] == s.tcb[t])
              && (forall t | t in s.tcb && t != s.running :: Live(s', t) <==> Live(s, t))
              && GaveUp(s, s', status)
  {
    hide QueuedBut, GaveUp, Dispatch, AtHead, Masked, MainSchedule;
    var r := s.running;
    Leaves(s, status);
    var s2 := LeaveOnly(s, r).(tcb := s.tcb[r := s.tcb[r].(status := status)], need := false);
    DispatchKeeps(s2);
    if Block(s, status).Some? {
      GivesUp(s, status, s2);
    }
  }

  /** Out of its queue, the running thread is as good as any that is not live. */
  lemma Leaves(s: Sched, status: Status)
    requires Inv(s) && !status.Running? && !status.Ready?
    ensures var r := s.running;
            var s2 := LeaveOnly(s, r).(tcb := s.tcb[r := s.tcb[r].(status := status)], need := false);
            && Between(s2) && Block(s, status) == Dispatch(s2) && s2.running == r
            && s2.rq == s.rq[Prio(s, r) := Lists.Without(s.rq[Prio(s, r)], r)]
            && (forall t | t != r :: Live(s2, t) <==> Live(s, t)) && !Live(s2, r)
  {
    hide QueuedBut, Dispatch;
    var r := s.running;
    LeaveOnlyKeeps(s, r);
    OutMayChange(LeaveOnly(s, r), r, s.tcb[r].(status := status));
    var s2 := Leave(SetStatus(s, r, status), r).(need := false);
    assert s2 == LeaveOnly(s, r).(tcb := s.tcb[r := s.tcb[r].(status := status)], need := false);
    assert QueuedWithout(s2, r) && !Live(s2, r);
    DeadIsOut(s2, r);
  }

  lemma GivesUp(s: Sched, status: Status, s2: Sched)
    requires Shape(s) && Between(s2) && Dispatch(s2).Some? && s2.running == s.running && !s2.need
             && !Live(s2, s.running)
    requires s2.rq == s.rq[Prio(s, s.running) := Lists.Without(s.rq[Prio(s, s.running)], s.running)]
    requires s2.tcb == s.tcb[s.running := s.tcb[s.running].(status := status)]
    ensures GaveUp(s, Dispatch(s2).value, status)
  {
    hide Queued, AtHead, Masked, Dispatch;
    DispatchKeeps(s2);
  }

  lemma UnblockKeeps(s: Sched, t: Tid)
    requires Inv(s) && t in s.tcb && !Live(s, t)
    ensures var s' := Unblock(s, t);
            && Inv(s') && s'.running == s.running && s'.tcb == s.tcb[t := s.tcb[t].(status := Ready)]
            && s'.rq == s.rq[Prio(s, t) := [t] + s.rq[Prio(s, t)]]
            && (s'.need <==> s.need || Prio(s, t) < Prio(s, s.running))
            && WokenUp(s, s', t)
  {
    hide QueuedBut;
    DeadIsOut(s, t);
    OutMayChange(s, t, s.tcb[t].(status := Ready));
    JumpOnlyKeeps(SetStatus(s, t, Ready), t);
    MaskIs(Unblock(s, t));
  }

  lemma CreateKeeps(s: Sched, t: Tid, prio: nat)
    requires Inv(s) && t !in s.tcb && prio < PRIO_NUM
    ensures var s' := Create(s, t, prio);
            && Inv(s') && s'.running == s.running && s'.tcb == s.tcb[t := Tcb(Ready, prio, TicksGet(prio))]
            && s'.rq == s.rq[prio := s.rq[prio] + [t]]
            && (s'.need <==> s.need || prio < Prio(s, s.running))
            && CameIn(s, s', t, prio)
  {
    hide QueuedBut;
    DeadIsOut(s, t);
    OutMayChange(s, t, Tcb(Ready, prio, TicksGet(prio)));
    JoinOnlyKeeps(s.(tcb := s.tcb[t := Tcb(Ready, prio, TicksGet(prio))]), t);
    MaskIs(Create(s, t, prio));
  }
}

/** When a woken or new thread that outranks the running one gets the processor at the next scheduling point. */
module Preemption {
  import opened Scheduling
  import Lists = IntrusiveLists

  /** Next to be dispatched is the thread that heads its queue and that no live thread outranks. */
  lemma DispatchedNext(x: Sched, t: Tid)
    requires Between(x) && Live(x, t)
    ensures Dispatch(x).Some? && x.rq[Prio(x, t)] != []
    ensures Dispatch(x).value.running == t
            <==> x.rq[Prio(x, t)][0] == t && forall u | u in x.tcb && Live(x, u) :: Prio(x, t) <= Prio(x, u)
  {
    hide QueuedBut;
    DispatchKeeps(x);
    TopIsLive(x);
    LiveAreMasked(x);
    InItsQueue(x, t);
    var h := Dispatch(x).value.running;
    assert Live(x, h) && Prio(x, h) == Highest(x);
  }

  lemma LiveAreMasked(x: Sched)
    requires Between(x)
    ensures forall u | u in x.tcb && Live(x, u) :: Prio(x, u) in x.mask
  {
  }

  lemma InItsQueue(x: Sched, t: Tid)
    requires Between(x) && Live(x, t)
    ensures x.rq[Prio(x, t)] != []
  {
  }

  lemma ExpireQueues(s: Sched)
    requires Shape(s)
    ensures var p := Prio(s, s.running);
            var n, rest := (p + 1) % PRIO_NUM, Lists.Without(s.rq[p], s.running);
            && Expire(s).rq == s.rq[p := rest][n := s.rq[n] + [s.running]]
            && Expire(s).tcb == s.tcb[s.running := Tcb(Ready, n, TicksGet(n))] && Expire(s).running == s.running
  {
  }

  /** A pending switch, from the point of view of some other thread t: the running thread is demoted, and t is next
      iff it is first of its queue then and has the smallest priority of all. */
  lemma NextAfterDemotion(s: Sched, t: Tid)
    requires Inv(s) && s.need && Live(s, t) && t != s.running
    ensures MainSchedule(s).Some?
    ensures var q, n := Prio(s, t), (Prio(s, s.running) + 1) % PRIO_NUM;
            MainSchedule(s).value.running == t
            <==> && q <= n && (forall u | u in s.tcb && Live(s, u) && u != s.running :: q <= Prio(s, u))
                 && Lists.Without(s.rq[q], s.running) != [] && Lists.Without(s.rq[q], s.running)[0] == t
  {
    hide QueuedBut, Expire, Dispatch, Lists.Without;
    ExpireKeeps(s);
    ExpireForgetsNeed(s);
    ExpireQueues(s);
    var x := Expire(s.(need := false));
    DispatchedNext(x, t);
    Demoted(s, t);
    StillQueued(s, t);
  }

  /** Priorities after the demotion. */
  lemma Demoted(s: Sched, t: Tid)
    requires Inv(s) && Live(s, t) && t != s.running
    ensures var x, q, n := Expire(s), Prio(s, t), (Prio(s, s.running) + 1) % PRIO_NUM;
            && t in x.tcb && Live(x, t) && Prio(x, t) == q
            && ((forall u | u in x.tcb && Live(x, u) :: q <= Prio(x, u))
                <==> q <= n && forall u | u in s.tcb && Live(s, u) && u != s.running :: q <= Prio(s, u))
  {
    hide QueuedBut, Expire;
    ExpireQueues(s);
    var x := Expire(s);
    assert Live(x, s.running) && Prio(x, s.running) == (Prio(s, s.running) + 1) % PRIO_NUM;
    forall u | u in s.tcb && u != s.running ensures Live(x, u) == Live(s, u) && Prio(x, u) == Prio(s, u) {
    }
  }

  /** The demoted thread goes to the back, so it changes no queue's first thread but an empty one's. */
  lemma StillQueued(s: Sched, t: Tid)
    requires Inv(s) && Live(s, t) && t != s.running
    ensures var rest := Lists.Without(s.rq[Prio(s, t)], s.running);
            rest != [] && Expire(s).rq[Prio(s, t)] != [] && Expire(s).rq[Prio(s, t)][0] == rest[0]
  {
    hide Expire;
    ExpireQueues(s);
    var q, r := Prio(s, t), s.running;
    assert t in s.rq[q];
    var rest := Lists.Without(s.rq[q], r);
    assert t in rest;
    if q != Prio(s, r) {
      assert r !in s.rq[q];
    }
  }

  /** thread_unblock, then a scheduling point. Without a pending switch the running thread goes on. With one, the woken
      thread runs iff neither the running thread, once it is demoted, nor any other live thread outranks it. */
  lemma WokenRunsNext(s: Sched, t: Tid)
    requires Inv(s) && t in s.tcb && !Live(s, t)
    ensures MainSchedule(Unblock(s, t)).Some?
    ensures Unblock(s, t).need <==> s.need || Prio(s, t) < Prio(s, s.running)
    ensures !Unblock(s, t).need ==> MainSchedule(Unblock(s, t)).value.running == s.running
    ensures Unblock(s, t).need ==>
              (MainSchedule(Unblock(s, t)).value.running == t
               <==> Prio(s, t) <= (Prio(s, s.running) + 1) % PRIO_NUM
                    && forall u | u in s.tcb && Live(s, u) && u != s.running :: Prio(s, t) <= Prio(s, u))
  {
    hide QueuedBut, Unblock, Expire, Dispatch;
    var s1 := Unblock(s, t);
    UnblockKeeps(s, t);
    if s1.need {
      NextAfterDemotion(s1, t);
      WithoutFront(t, s.rq[Prio(s, t)], s.running);
      OthersSame(s, s1, t);
    }
  }

  lemma WithoutFront(t: Tid, q: seq<Tid>, r: Tid)
    requires t != r
    ensures Lists.Without([t] + q, r) != [] && Lists.Without([t] + q, r)[0] == t
  {
    assert ([t] + q)[1..] == q;
  }

  /** A live newcomer besides, the same threads are live at the same priorities. */
  lemma OthersSame(s: Sched, s1: Sched, t: Tid)
    requires s1.running == s.running && t != s.running && t in s1.tcb && !Live(s, t)
    requires forall u | u != t :: (u in s1.tcb <==> u in s.tcb) && (u in s.tcb ==> s1.tcb[u] == s.tcb[u])
    ensures (forall u | u in s1.tcb && Live(s1, u) && u != s.running :: s1.tcb[t].prio <= Prio(s1, u))
            <==> forall u | u in s.tcb && Live(s, u) && u != s.running :: s1.tcb[t].prio <= Prio(s, u)
  {
  }

  /** thread_run, then a scheduling point. The new thread queues at the back, so it must outrank every other one. */
  lemma CreatedRunsNext(s: Sched, t: Tid, prio: nat)
    requires Inv(s) && t !in s.tcb && prio < PRIO_NUM
    ensures MainSchedule(Create(s, t, prio)).Some?
    ensures Create(s, t, prio).need <==> s.need || prio < Prio(s, s.running)
    ensures !Create(s, t, prio).need ==> MainSchedule(Create(s, t, prio)).value.running == s.running
    ensures Create(s, t, prio).need ==>
              (MainSchedule(Create(s, t, prio)).value.running == t
               <==> prio <= (Prio(s, s.running) + 1) % PRIO_NUM
                    && forall u | u in s.tcb && Live(s, u) && u != s.running :: prio < Prio(s, u))
  {
    hide QueuedBut, Create, Expire, Dispatch;
    var s1 := Create(s, t, prio);
    CreateKeeps(s, t, prio);
    if s1.need {
      NextAfterDemotion(s1, t);
      OthersSame(s, s1, t);
      BehindOthers(s, s1, t, prio);
    }
  }

  /** At the back of its queue a thread is first iff the running one is the only other in it. */
  lemma BehindOthers(s: Sched, s1: Sched, t: Tid, prio: nat)
    requires Inv(s) && t !in s.tcb && prio < PRIO_NUM && s1.rq == s.rq[prio := s.rq[prio] + [t]]
    ensures var rest := Lists.Without(s1.rq[prio], s.running);
            && rest != []
            && (rest[0] == t <==> forall u | u in s.tcb && Live(s, u) && u != s.running :: Prio(s, u) != prio)
  {
    var q, r := s.rq[prio], s.running;
    assert t in s.rq[prio] ==> LiveIn(s.tcb, t);
    var rest := Lists.Without(q + [t], r);
    assert t in q + [t];
    assert t in rest;
    if u :| u in q && u != r {
      FirstStays(q, t, r, u);
      assert Live(s, u) && Prio(s, u) == prio;
    } else {
      OnlyRunning(q, t, r);
    }
  }

  lemma {:induction false} FirstStays(q: seq<Tid>, t: Tid, r: Tid, u: Tid)
    requires u in q && u != r && t !in q
    ensures Lists.Without(q + [t], r) != [] && Lists.Without(q + [t], r)[0] != t
  {
    assert (q + [t])[1..] == q[1..] + [t];
    if q[0] == r {
      FirstStays(q[1..], t, r, u);
    }
  }

  lemma {:induction false} OnlyRunning(q: seq<Tid>, t: Tid, r: Tid)
    requires t != r && forall u | u in q :: u == r
    ensures Lists.Without(q + [t], r) == [t]
  {
    if q != [] {
      assert q[0] in q && forall u | u in q[1..] :: u in q;
      assert (q + [t])[1..] == q[1..] + [t];
      OnlyRunning(q[1..], t, r);
    } else {
      assert q + [t] == [t];
    }
  }

  /** With no switch pending before, a newcomer that outranks the running thread outranks all, so only the wrap of
      priority 31 to 0 can keep it waiting. */
  lemma NobodyBetween(s: Sched, q: nat)
    requires Inv(s) && !s.need && q < Prio(s, s.running)
    ensures forall u | u in s.tcb && Live(s, u) :: q < Prio(s, u)
    ensures q <= (Prio(s, s.running) + 1) % PRIO_NUM <==> Prio(s, s.running) < PRIO_NUM - 1 || q == 0
  {
    var p := Prio(s, s.running);
    assert (p + 1) % PRIO_NUM == if p == PRIO_NUM - 1 then 0 else p + 1;
    forall u | u in s.tcb && Live(s, u) ensures p <= Prio(s, u) {
      assert Prio(s, u) in s.mask;
    }
  }

  lemma WokenPreempts(s: Sched, t: Tid)
    requires Inv(s) && !s.need && t in s.tcb && !Live(s, t) && Prio(s, t) < Prio(s, s.running)
    ensures MainSchedule(Unblock(s, t)).Some?
    ensures MainSchedule(Unblock(s, t)).value.running == t
            <==> (Prio(s, s.running) < PRIO_NUM - 1 || Prio(s, t) == 0)
  {
    hide Inv, Unblock, MainSchedule;
    WokenRunsNext(s, t);
    NobodyBetween(s, Prio(s, t));
  }

  lemma CreatedPreempts(s: Sched, t: Tid, prio: nat)
    requires Inv(s) && !s.need && t !in s.tcb && prio < Prio(s, s.running)
    ensures MainSchedule(Create(s, t, prio)).Some?
    ensures MainSchedule(Create(s, t, prio)).value.running == t <==> (Prio(s, s.running) < PRIO_NUM - 1 || prio == 0)
  {
    hide Inv, Create, MainSchedule;
    PrioBound(s);
    CreatedRunsNext(s, t, prio);
    NobodyBetween(s, prio);
  }

  lemma PrioBound(s: Sched)
    requires Inv(s)
    ensures Prio(s, s.running) < PRIO_NUM
  {
  }

  /** The demotion shows after the switch, whoever runs. */
  lemma DemotedAfterSwitch(s: Sched)
    requires Inv(s) && s.need
    ensures MainSchedule(s).Some? && s.running in MainSchedule(s).value.tcb
    ensures Prio(MainSchedule(s).value, s.running) == (Prio(s, s.running) + 1) % PRIO_NUM
    ensures Live(s, MainSchedule(s).value.running)
  {
    hide QueuedBut, Expire, Dispatch;
    MainScheduleKeeps(s);
    ExpireKeeps(s);
    ExpireForgetsNeed(s);
    ExpireQueues(s);
    DispatchKeeps(Expire(s.(need := false)));
  }

  /** Boot: the idle thread alone, at priority 31. */
  function Boot(idle: Tid): Sched {
    Sched(idle, false, seq(PRIO_NUM, p => if p == 31 then [idle] else []), {31},
      map[idle := Tcb(Running, 31, TicksGet(31))])
  }

  lemma BootInv(idle: Tid)
    ensures Inv(Boot(idle)) && TopPriority(Boot(idle)) && Allowed(Boot(idle))
    ensures var b := Boot(idle);
            && b.running == idle && !b.need && b.mask == {31}
            && b.rq[31] == [idle] && (forall p | 0 <= p < 31 :: b.rq[p] == [])
            && b.tcb.Keys == {idle} && b.tcb[idle] == Tcb(Running, 31, b.tcb[idle].ticks)
            && 3 * (b.tcb[idle].ticks - 1) <= 31 < 3 * b.tcb[idle].ticks
  {
  }

  /** The case that fails, on the kernel's own start: a thread created at priority 8 does not displace the idle
      thread. */
  lemma IdleKeepsTheProcessor(idle: Tid, t: Tid)
    requires t != idle
    ensures MainSchedule(Create(Boot(idle), t, 8)).Some?
    ensures var s := MainSchedule(Create(Boot(idle), t, 8)).value;
            s.running == idle && Prio(s, idle) == 0
  {
    var b := Boot(idle);
    BootInv(idle);
    hide Inv, MainSchedule, Create;
    CreatedPreempts(b, t, 8);
    CreatedRunsNext(b, t, 8);
    CreatedInv(b, t, 8);
    DemotedAfterSwitch(Create(b, t, 8));
  }

  lemma CreatedInv(s: Sched, t: Tid, prio: nat)
    requires Inv(s) && t !in s.tcb && prio < PRIO_NUM
    ensures var s1 := Create(s, t, prio);
            Inv(s1) && s1.running == s.running && s1.tcb == s.tcb[t := Tcb(Ready, prio, TicksGet(prio))]
  {
    hide Inv, Create;
    CreateKeeps(s, t, prio);
  }
}

/** Pieces of runs: the timer brings every ready thread to the processor, and what one step of a queue's user
    changes. */
module Turns {
  import opened Options
  import opened Scheduling
  import opened RingBuffers
  import opened Synchronisation
  import opened KernelMachine
  import Lists = IntrusiveLists
  import V = Starvation

  // ----- the timer -----

  /** A timer interrupt takes a tick off the allowance, or dispatches the first thread of the smallest queue. */
  lemma TickCases(s: Sched)
    requires Inv(s)
    ensures Tick(s).Some? && Inv(Tick(s).value) && SameLive(s, Tick(s).value)
    ensures var n, s' := s.tcb[s.running].ticks, Tick(s).value;
            if n > 0 && !s.need then s' == V.WithTicks(s, n - 1) else V.Headed(s') && !s'.need
  {
    hide QueuedBut, Expire, Dispatch;
    TickKeeps(s);
    var x := TimerHandler(s);
    if x.need {
      TimerInv(s);
      Expired(x);
    }
  }

  lemma TimerInv(s: Sched)
    requires Inv(s)
    ensures var x := TimerHandler(s); x.need ==> Inv(x)
  {
    var c := s.tcb[s.running];
    if c.ticks != 0 {
      Relabel(s, TimerHandler(s).tcb);
    }
  }

  lemma Expired(x: Sched)
    requires Inv(x) && x.need
    ensures MainSchedule(x).Some? && V.Headed(MainSchedule(x).value) && !MainSchedule(x).value.need
  {
    hide QueuedBut, Expire, Dispatch;
    ExpireKeeps(x);
    ExpireForgetsNeed(x);
    DispatchKeeps(Expire(x).(need := false));
  }

  // ----- turns -----

  /** No other thread that is awake is in sem_down or ioq_wait. */
  ghost predicate Clear(k: Kernel, t: Tid) {
    && t in k.s.tcb && t !in BlockedSet(k.s)
    && forall u | u in k.y.place && u !in BlockedSet(k.s) && u != t :: k.y.place[u].Outside?
  }

  /** The same threads, awake or asleep, in the same places. */
  ghost predicate Alike(k: Kernel, k': Kernel) {
    k'.y == k.y && k'.s.tcb.Keys == k.s.tcb.Keys && BlockedSet(k'.s) == BlockedSet(k.s)
  }

  function Calls(run: seq<Action>): seq<Action> {
    if run == [] then [] else (if run[0].Timer? then [] else [run[0]]) + Calls(run[1..])
  }

  // ----- the next turn of a thread -----

  ghost function Phase(s: Sched): nat {
    if V.Headed(s) && !s.need then 0 else 1
  }

  ghost function Left(s: Sched, t: Tid): nat
    requires Inv(s) && Live(s, t)
  {
    if Phase(s) == 0 then InQueue(s, t); V.Wait(s, t) else 0
  }

  lemma InQueue(s: Sched, t: Tid)
    requires Inv(s) && Live(s, t)
    ensures t in s.rq[Prio(s, t)]
  {
  }

  /** A timer interrupt brings t nearer. */
  lemma Nearer(s: Sched, t: Tid)
    requires Inv(s) && Live(s, t) && t != s.running
    ensures Tick(s).Some? && Inv(Tick(s).value) && SameLive(s, Tick(s).value)
    ensures var s' := Tick(s).value;
            && Live(s', t)
            && Phase(s') <= Phase(s)
            && (Phase(s') == Phase(s) ==>
                  && Left(s', t) <= Left(s, t)
                  && (Left(s', t) == Left(s, t) ==>
                        s'.running == s.running && s'.tcb[s'.running].ticks < s.tcb[s.running].ticks))
  {
    hide QueuedBut, V.Wait, Tick, V.Slice;
    TickCases(s);
    InQueue(s, t);
    var n, s' := s.tcb[s.running].ticks, Tick(s).value;
    if n > 0 && !s.need {
      if V.Headed(s) {
        V.StillHeaded(s, n - 1);
        SameWait(s, n - 1, t);
      }
    } else if Phase(s) == 0 {
      LastTick(s);
      V.WaitDrops(s, t);
    }
  }

  lemma SameWait(s: Sched, n: nat, t: Tid)
    requires V.Headed(s) && Live(s, t) && t in s.rq[Prio(s, t)]
    ensures Live(V.WithTicks(s, n), t) && V.Wait(V.WithTicks(s, n), t) == V.Wait(s, t)
  {
  }

  lemma LastTick(s: Sched)
    requires Inv(s) && s.tcb[s.running].ticks == 0
    ensures Tick(s) == V.Slice(s)
  {
    hide MainSchedule;
  }

  /** With nobody else on the way in or out of a wait, timer interrupts alone bring t to the processor. */
  lemma {:induction false} Turn(k: Kernel, t: Tid) returns (run: seq<Action>, k': Kernel)
    requires KInv(k) && Clear(k, t)
    ensures Reaches(k, run, k') && Calls(run) == []
    ensures KInv(k') && Alike(k, k') && k'.s.running == t && Clear(k', t)
    decreases Phase(k.s), if Live(k.s, t) then Left(k.s, t) else 0, k.s.tcb[k.s.running].ticks
  {
    hide SyncInv, Inv, Tick, Phase, Left;
    InvFormed(k);
    if k.s.running == t {
      return [], k;
    }
    Nearer(k.s, t);
    var k1 := k.(s := Tick(k.s).value);
    SwitchKeeps(k, k1.s);
    SwitchKeepsBlocked(k.s, k1.s);
    var rest;
    rest, k' := Turn(k1, t);
    run := [Timer] + rest;
    assert run[1..] == rest;
  }

  // ----- what the pieces of one step change -----

  function Mtx(k: Kernel, q: Qid): Mid
    requires q in k.y.ioq
  {
    k.y.ioq[q].mtx
  }

  /** The running thread may be in sem_down for the mutex of queue q. */
  ghost predicate AtMutex(k: Kernel, q: Qid) {
    && KInv(k) && q in k.y.ioq && Mtx(k, q) in k.y.sem
    && k.s.running in k.y.place && k.s.running in k.y.held
    && (k.y.place[k.s.running].Outside? || InLoop(k.y.place[k.s.running], Mtx(k, q)))
  }

  function InSlot(i: Ioq, role: Role, t: Tid): Ioq {
    if role.Consumer? then i.(consumer := Some(t)) else i.(producer := Some(t))
  }

  /** The mutex is free: sem_down takes it and ioq_wait sleeps, whatever the buffer holds. */
  lemma TakesSlot(k: Kernel, q: Qid, role: Role)
    requires AtMutex(k, q) && k.y.sem[Mtx(k, q)].val > 0 && !OthersBlocked(k)
    ensures Formed(k) && DownOnce(k, Mtx(k, q), ToWait(q, role)).Next?
    ensures var r, m, k' := k.s.running, Mtx(k, q), DownOnce(k, Mtx(k, q), ToWait(q, role)).k;
            && KInv(k') && k'.s.tcb.Keys == k.s.tcb.Keys && BlockedSet(k'.s) == BlockedSet(k.s) + {r}
            && k'.y.sem == k.y.sem[m := k.y.sem[m].(val := k.y.sem[m].val - 1)]
            && k'.y.ioq == k.y.ioq[q := InSlot(k.y.ioq[q], role, r)]
            && k'.y.place == k.y.place[r := InWait(q, role)]
  {
    hide Inv, SyncInv, Block;
    InvFormed(k);
    DownKeeps(k, Mtx(k, q), ToWait(q, role));
    SleepBlocks(k.s);
  }

  /** The mutex is taken: the thread queues for it and sleeps. */
  lemma QueuesUp(k: Kernel, q: Qid, role: Role)
    requires AtMutex(k, q) && k.y.sem[Mtx(k, q)].val == 0 && !OthersBlocked(k)
    ensures Formed(k) && DownOnce(k, Mtx(k, q), ToWait(q, role)).Next?
    ensures var r, m, k' := k.s.running, Mtx(k, q), DownOnce(k, Mtx(k, q), ToWait(q, role)).k;
            && KInv(k') && k'.s.tcb.Keys == k.s.tcb.Keys && BlockedSet(k'.s) == BlockedSet(k.s) + {r}
            && k'.y.sem == k.y.sem[m := k.y.sem[m].(waiters := k.y.sem[m].waiters + [r])]
            && k'.y.ioq == k.y.ioq && k'.y.place == k.y.place[r := InDown(m, ToWait(q, role))]
  {
    hide Inv, SyncInv, Block;
    InvFormed(k);
    NotWaiting(k, Mtx(k, q));
    DownKeeps(k, Mtx(k, q), ToWait(q, role));
    SleepBlocks(k.s);
  }

  lemma NotWaiting(k: Kernel, m: Mid)
    requires KInv(k) && m in k.y.sem
    ensures k.s.running !in k.y.sem[m].waiters
  {
    hide QueuedBut, Exclusive, NoLostWakeup, PlaceInv, Rings;
  }

  /** A byte is there: it is taken, and a sleeping producer woken. */
  lemma TakesByte(k: Kernel, q: Qid)
    requires KInv(k) && q in k.y.ioq && k.s.running in k.y.place && k.y.place[k.s.running].Outside?
    requires !Empty(k.y.ioq[q].ring)
    ensures Formed(k) && GetTop(k, q).Next?
    ensures var i, k' := k.y.ioq[q], GetTop(k, q).k;
            && Fifo(i.ring) && KInv(k') && k'.s.running == k.s.running && k'.s.tcb.Keys == k.s.tcb.Keys
            && BlockedSet(k'.s) == (if i.producer.Some? then BlockedSet(k.s) - {i.producer.value} else BlockedSet(k.s))
            && k'.y.sem == k.y.sem && k'.y.place == k.y.place
            && k'.y.ioq == k.y.ioq[q := i.(ring := Pop(i.ring), producer := None)]
  {
    hide Inv, SyncInv, Unblock, DownOnce;
    InvFormed(k);
    RingAt(k, q);
    GetKeeps(k, q);
    if k.y.ioq[q].producer.Some? {
      SleepersAre(k, q);
      WakeUnblocks(k.s, k.y.ioq[q].producer.value);
    }
  }

  /** There is room: the byte is stored, and a sleeping consumer woken. */
  lemma StoresByte(k: Kernel, q: Qid, b: Byte)
    requires KInv(k) && q in k.y.ioq && k.s.running in k.y.place && k.y.place[k.s.running].Outside?
    requires !Full(k.y.ioq[q].ring)
    ensures Formed(k) && PutTop(k, q, b).Next?
    ensures var i, k' := k.y.ioq[q], PutTop(k, q, b).k;
            && Fifo(i.ring) && KInv(k') && k'.s.running == k.s.running && k'.s.tcb.Keys == k.s.tcb.Keys
            && BlockedSet(k'.s) == (if i.consumer.Some? then BlockedSet(k.s) - {i.consumer.value} else BlockedSet(k.s))
            && k'.y.sem == k.y.sem && k'.y.place == k.y.place
            && k'.y.ioq == k.y.ioq[q := i.(ring := Push(i.ring, b), consumer := None)]
  {
    hide Inv, SyncInv, Unblock, DownOnce;
    InvFormed(k);
    RingAt(k, q);
    PutKeeps(k, q, b);
    if k.y.ioq[q].consumer.Some? {
      SleepersAre(k, q);
      WakeUnblocks(k.s, k.y.ioq[q].consumer.value);
    }
  }

  lemma RingAt(k: Kernel, q: Qid)
    requires KInv(k) && q in k.y.ioq
    ensures Fifo(k.y.ioq[q].ring) && Indexed(k.y.ioq[q].ring)
  {
    hide Inv, MutexInv, PlaceInv;
    RingsIndexed(k.y.ioq);
  }

  /** A slot names a sleeping thread. */
  lemma SleepersAre(k: Kernel, q: Qid)
    requires KInv(k) && q in k.y.ioq
    ensures k.y.ioq[q].consumer.Some? ==> k.y.ioq[q].consumer.value in BlockedSet(k.s)
    ensures k.y.ioq[q].producer.Some? ==> k.y.ioq[q].producer.value in BlockedSet(k.s)
  {
    hide Inv, MutexInv, Places, Rings, BlockedSet;
  }

  /** Back from ioq_wait: the mutex is free again, and its first waiter awake. */
  lemma GivesBack(k: Kernel, q: Qid)
    requires KInv(k) && k.s.running in k.y.place && k.y.place[k.s.running].InWait? && k.y.place[k.s.running].q == q
    ensures q in k.y.ioq && Mtx(k, q) in k.y.sem && Formed(k) && Up(k, Mtx(k, q)).Next?
    ensures k.y.ioq[q].consumer.None? && k.y.ioq[q].producer.None?
    ensures var r, m, k' := k.s.running, Mtx(k, q), Up(k, Mtx(k, q)).k;
            var w := k.y.sem[m].waiters;
            && k.y.sem[m].val == 0
            && KInv(k') && k'.s.running == r && k'.s.tcb.Keys == k.s.tcb.Keys
            && BlockedSet(k'.s) == (if w == [] then BlockedSet(k.s) else BlockedSet(k.s) - {w[0]})
            && k'.y.sem == k.y.sem[m := Sem(1, if w == [] then [] else w[1..])]
            && k'.y.ioq == k.y.ioq && k'.y.place == k.y.place[r := Outside]
  {
    hide Inv, Unblock, SyncInv, BlockedSet, Simple;
    InvFormed(k);
    OwnsIt(k, q);
    var m := Mtx(k, q);
    UpKeeps(k, m);
    if k.y.sem[m].waiters != [] {
      WaitersSleep(k, m);
      WakeUnblocks(k.s, k.y.sem[m].waiters[0]);
    }
  }

  lemma OwnsIt(k: Kernel, q: Qid)
    requires KInv(k) && k.s.running in k.y.place && k.y.place[k.s.running].InWait? && k.y.place[k.s.running].q == q
    ensures q in k.y.ioq && Mtx(k, q) in k.y.sem && k.s.running in k.y.held
    ensures Mtx(k, q) in k.y.held[k.s.running] && k.y.sem[Mtx(k, q)].val == 0
    ensures k.y.ioq[q].consumer.None? && k.y.ioq[q].producer.None?
  {
    hide QueuedBut, WaitersExact, NoLostWakeup, Rings, BlockedSet;
    InvFormed(k);
    OwnerIsAlone(k.y, BlockedSet(k.s), k.s.running, q);
  }

  lemma WaitersSleep(k: Kernel, m: Mid)
    requires KInv(k) && m in k.y.sem
    ensures forall t | t in k.y.sem[m].waiters :: t in BlockedSet(k.s)
  {
    hide QueuedBut, Exclusive, NoLostWakeup, PlaceInv, Rings, Lists.Distinct, BlockedSet;
  }

  // ----- runs put together -----

  lemma {:induction false} Joined(k0: Kernel, r1: seq<Action>, k1: Kernel, r2: seq<Action>, k2: Kernel)
    requires Reaches(k0, r1, k1) && Reaches(k1, r2, k2)
    ensures Reaches(k0, r1 + r2, k2) && Calls(r1 + r2) == Calls(r1) + Calls(r2)
    decreases |r1|
  {
    hide Step, Enabled, Formed;
    if r1 == [] {
      assert r1 + r2 == r2;
    } else {
      assert (r1 + r2)[1..] == r1[1..] + r2;
      Joined(Step(k0, r1[0]).k, r1[1..], k1, r2, k2);
    }
  }

  /** t runs next, at the end of a run so far. */
  lemma LetRun(k0: Kernel, run: seq<Action>, k: Kernel, t: Tid) returns (run': seq<Action>, k': Kernel)
    requires Reaches(k0, run, k) && KInv(k) && Clear(k, t)
    ensures Reaches(k0, run', k') && Calls(run') == Calls(run)
    ensures KInv(k') && Alike(k, k') && k'.s.running == t && Clear(k', t)
  {
    hide KInv, Reaches, Clear, Alike;
    var rest;
    rest, k' := Turn(k, t);
    Joined(k0, run, k, rest, k');
    run' := run + rest;
  }

  lemma Extend(k0: Kernel, run: seq<Action>, k: Kernel, a: Action) returns (run': seq<Action>)
    requires Reaches(k0, run, k) && Formed(k) && Enabled(k, a) && Step(k, a).Next? && !a.Timer?
    ensures Reaches(k0, run', Step(k, a).k) && Calls(run') == Calls(run) + [a]
  {
    hide Step, Enabled, Formed;
    assert [a][1..] == [];
    Joined(k0, run, k, [a], Step(k, a).k);
    run' := run + [a];
  }

  /** A new thread, while somebody runs on. */
  lemma Spawned(k0: Kernel, run: seq<Action>, k: Kernel, t: Tid, prio: nat) returns (run': seq<Action>, k': Kernel)
    requires Reaches(k0, run, k) && KInv(k) && t !in k.s.tcb && prio < PRIO_NUM
    requires k.s.running in k.y.place && k.y.place[k.s.running].Outside?
    ensures Reaches(k0, run', k') && Calls(run') == Calls(run) + [Spawn(t, prio)]
    ensures KInv(k') && k'.s.running == k.s.running && k'.s.tcb.Keys == k.s.tcb.Keys + {t}
    ensures BlockedSet(k'.s) == BlockedSet(k.s) && k'.y == AddThread(k.y, t)
  {
    hide Inv, SyncInv, Create, Reaches, Calls;
    InvFormed(k);
    SpawnKeeps(k, t, prio);
    SpawnEffect(k.s, t, prio);
    CreatedKeys(k.s, t, prio);
    run' := Extend(k0, run, k, Spawn(t, prio));
    k' := Step(k, Spawn(t, prio)).k;
  }

  lemma CreatedKeys(s: Sched, t: Tid, prio: nat)
    requires Shape(s) && t !in s.tcb && prio < PRIO_NUM
    ensures Create(s, t, prio).tcb.Keys == s.tcb.Keys + {t} && Create(s, t, prio).running == s.running
  {
  }
}

/** Two threads on an I/O queue that sleep for good: one in the slot of a full or an empty buffer, holding the mutex,
    the other queueing for that mutex. */
module Deadlock {
  import opened Options
  import opened Scheduling
  import opened RingBuffers
  import opened Synchronisation
  import opened KernelMachine
  import opened Stranding
  import opened Turns
  import W = WakeOrder

  /** t sleeps for room in a full buffer, or for a byte in an empty one, and u waits for the mutex that t holds. */
  ghost predicate Deadlocked(k: Kernel, q: Qid, t: Tid, u: Tid) {
    && q in k.y.ioq && u in W.Waiters(k, k.y.ioq[q].mtx)
    && var i := k.y.ioq[q];
    (i.producer == Some(t) && Full(i.ring)) || (i.consumer == Some(t) && Empty(i.ring))
  }

  /** The calls that move a byte there: a get from a full buffer, a put into an empty one. */
  ghost predicate Relieves(k: Kernel, a: Action, q: Qid)
    requires q in k.y.ioq
  {
    if Full(k.y.ioq[q].ring) then a == Get(q) else a.Put? && a.q == q
  }

  lemma Holder(k: Kernel, q: Qid, t: Tid)
    requires KInv(k) && q in k.y.ioq && (k.y.ioq[q].producer == Some(t) || k.y.ioq[q].consumer == Some(t))
    ensures t in BlockedSet(k.s) && t in k.y.place && k.y.place[t].InWait? && k.y.place[t].q == q
    ensures t in k.y.held && k.y.ioq[q].mtx in k.y.held[t]
    ensures k.y.ioq[q].mtx in k.y.sem && k.y.sem[k.y.ioq[q].mtx].val == 0
  {
    hide QueuedBut, WaitersExact, NoLostWakeup, Rings, BlockedSet;
  }

  lemma Waiter(k: Kernel, m: Mid, u: Tid)
    requires KInv(k) && u in W.Waiters(k, m)
    ensures u in BlockedSet(k.s) && u in k.y.place && k.y.place[u].InDown? && k.y.place[u].m == m
  {
    hide QueuedBut, Exclusive, NoLostWakeup, PlaceInv, Rings, BlockedSet;
  }

  lemma RunnerIsAwake(k: Kernel)
    requires KInv(k)
    ensures k.s.running in k.y.place && k.s.running !in BlockedSet(k.s)
  {
    hide QueuedBut, SyncInv;
  }

  /** Only its holder releases a mutex, and the holder sleeps. */
  lemma NobodyReleases(k: Kernel, a: Action, q: Qid, t: Tid)
    requires KInv(k) && Formed(k) && Enabled(k, a) && q in k.y.ioq
    requires k.y.ioq[q].producer == Some(t) || k.y.ioq[q].consumer == Some(t)
    ensures !W.Releases(k, a, k.y.ioq[q].mtx)
  {
    hide QueuedBut, WaitersExact, NoLostWakeup, Rings, BlockedSet;
    Holder(k, q, t);
    RunnerIsAwake(k);
    if a == Resume && k.y.place[k.s.running].InWait? {
      OwnsIt(k, k.y.place[k.s.running].q);
    }
  }

  lemma OneSlot(k: Kernel, q: Qid)
    requires KInv(k) && q in k.y.ioq
    ensures k.y.ioq[q].producer.None? || k.y.ioq[q].consumer.None?
  {
    hide QueuedBut, WaitersExact, NoLostWakeup, Rings, BlockedSet;
  }

  /** The buffer and the slots stay, unless somebody moves a byte. */
  lemma QueueStays(k: Kernel, a: Action, q: Qid, t: Tid, u: Tid)
    requires KInv(k) && Formed(k) && Enabled(k, a) && Step(k, a).Next? && Deadlocked(k, q, t, u)
    ensures q in Step(k, a).k.y.ioq && Step(k, a).k.y.ioq[q].mtx == k.y.ioq[q].mtx
    ensures if Relieves(k, a, q) then Step(k, a).k.y.ioq[q].producer.None? && Step(k, a).k.y.ioq[q].consumer.None?
            else Step(k, a).k.y.ioq[q] == k.y.ioq[q]
  {
    hide KInv, GetTop, PutTop, DownOnce, Up, MainSchedule, Tick, Create, W.Waiters;
    Holder(k, q, t);
    OneSlot(k, q);
    match a
    case Lock(m) => IoqAfterDown(k, m, ToCaller);
    case Get(p) => IoqAfterGet(k, p);
    case Put(p, b) => IoqAfterPut(k, p, b);
    case Resume => ResumeStays(k, q, t, u);
    case _ =>
  }

  lemma ResumeStays(k: Kernel, q: Qid, t: Tid, u: Tid)
    requires KInv(k) && Formed(k) && Enabled(k, Resume) && Step(k, Resume).Next? && Deadlocked(k, q, t, u)
    ensures q in Step(k, Resume).k.y.ioq && Step(k, Resume).k.y.ioq[q] == k.y.ioq[q]
  {
    hide KInv, GetTop, PutTop, DownOnce, Up, W.Waiters;
    Holder(k, q, t);
    match k.y.place[k.s.running]
    case InDown(m, cont) =>
      IoqAfterDown(k, m, cont);
      if Queues(k.y.place[k.s.running], q) { LateIsInOrder(k, q); }
    case InWait(p, role) =>
      GivesBack(k, p);
      var k1 := Up(k, k.y.ioq[p].mtx).k;
      if role.Consumer? { IoqAfterGet(k1, p); } else { IoqAfterPut(k1, p, role.byte); }
  }

  /** The two sleep on through every step of the others but one that moves a byte. */
  lemma DeadlockStays(k: Kernel, a: Action, q: Qid, t: Tid, u: Tid)
    requires KInv(k) && Formed(k) && Enabled(k, a) && Step(k, a).Next? && Deadlocked(k, q, t, u)
    ensures Deadlocked(Step(k, a).k, q, t, u) <==> !Relieves(k, a, q)
  {
    hide KInv, Step, W.Waiters;
    QueueStays(k, a, q, t, u);
    if !Relieves(k, a, q) {
      NobodyReleases(k, a, q, t);
      var m := k.y.ioq[q].mtx;
      W.StepIsFifo(k, a, m);
      assert W.Woken1(k, a, m) == [] && u in W.Waiters(k, m) + W.Queued1(k, a, m);
      assert W.Waiters(k, m) + W.Queued1(k, a, m) == W.Waiters(Step(k, a).k, m);
    }
  }

  /** Somewhere in the run somebody moves a byte of q. */
  ghost predicate Relieved(k0: Kernel, run: seq<Action>, q: Qid)
    decreases |run|
  {
    && run != [] && Formed(k0) && Enabled(k0, run[0])
    && ((q in k0.y.ioq && Relieves(k0, run[0], q))
        || (Step(k0, run[0]).Next? && Relieved(Step(k0, run[0]).k, run[1..], q)))
  }

  /** However long the run, and whatever the others do with locks, other queues and new threads: as long as none of them
      moves a byte of this queue, both threads are asleep where they were. */
  lemma {:induction false} DeadlockIsForever(k0: Kernel, run: seq<Action>, k: Kernel, q: Qid, t: Tid, u: Tid)
    requires KInv(k0) && Deadlocked(k0, q, t, u) && Reaches(k0, run, k) && !Relieved(k0, run, q)
    ensures Deadlocked(k, q, t, u) && {t, u} <= BlockedSet(k.s)
    decreases |run|
  {
    hide KInv, Step, Enabled, Formed, Deadlocked, Relieves, BlockedSet;
    if run == [] {
      Asleep(k, q, t, u);
    } else {
      StepKeeps(k0, run[0]);
      Inside(k0, q, t, u);
      DeadlockStays(k0, run[0], q, t, u);
      DeadlockIsForever(Step(k0, run[0]).k, run[1..], k, q, t, u);
    }
  }

  lemma Inside(k: Kernel, q: Qid, t: Tid, u: Tid)
    requires Deadlocked(k, q, t, u)
    ensures q in k.y.ioq
  {
  }

  lemma Asleep(k: Kernel, q: Qid, t: Tid, u: Tid)
    requires KInv(k) && Deadlocked(k, q, t, u)
    ensures {t, u} <= BlockedSet(k.s)
  {
    hide KInv, BlockedSet, W.Waiters, Full, Empty;
    Holder(k, q, t);
    Waiter(k, k.y.ioq[q].mtx, u);
  }
}

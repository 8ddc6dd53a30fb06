/** Every waiter list is a FIFO over whole runs: threads are woken in exactly the order in which they queued. */
module WakeOrder {
  import opened Scheduling
  import opened RingBuffers
  import opened Synchronisation
  import opened KernelMachine

  function Waiters(k: Kernel, m: Mid): seq<Tid> {
    if m in k.y.sem then k.y.sem[m].waiters else []
  }

  /** The step runs sem_down's loop body on mutex m and finds it taken. */
  ghost predicate QueuesOn(k: Kernel, a: Action, m: Mid)
    requires Formed(k) && Enabled(k, a)
  {
    && m in k.y.sem && k.y.sem[m].val == 0
    && match a
       case Lock(n) => n == m
       case Get(q) => Empty(k.y.ioq[q].ring) && k.y.ioq[q].mtx == m
       case Put(q, _) => Full(k.y.ioq[q].ring) && k.y.ioq[q].mtx == m
       case Resume => InLoop(k.y.place[k.s.running], m)
       case _ => false
  }

  /** The step runs sem_up on mutex m. */
  ghost predicate Releases(k: Kernel, a: Action, m: Mid)
    requires Formed(k) && Enabled(k, a)
  {
    match a
    case Unlock(n) => n == m
    case Resume => (match k.y.place[k.s.running] case InWait(q, _) => k.y.ioq[q].mtx == m case _ => false)
    case _ => false
  }

  ghost function Queued1(k: Kernel, a: Action, m: Mid): seq<Tid>
    requires Formed(k) && Enabled(k, a)
  {
    if QueuesOn(k, a, m) then [k.s.running] else []
  }

  ghost function Woken1(k: Kernel, a: Action, m: Mid): seq<Tid>
    requires Formed(k) && Enabled(k, a)
  {
    if Releases(k, a, m) && Waiters(k, m) != [] then [Waiters(k, m)[0]] else []
  }

  lemma DownQueues(k: Kernel, n: Mid, cont: Cont, m: Mid)
    requires Formed(k) && n in k.y.sem && (cont.ToWait? ==> cont.q in k.y.ioq)
    requires DownOnce(k, n, cont).Next? && k.s.running !in k.y.sem[n].waiters
    ensures Waiters(DownOnce(k, n, cont).k, m)
            == Waiters(k, m) + if n == m && k.y.sem[n].val == 0 then [k.s.running] else []
  {
    hide Block;
  }

  lemma UpWakes(k: Kernel, n: Mid, m: Mid)
    requires Formed(k) && n in k.y.sem && Up(k, n).Next?
    ensures var k' := Up(k, n).k;
            && Waiters(k, m) == (if n == m && Waiters(k, m) != [] then [Waiters(k, m)[0]] else []) + Waiters(k', m)
            && k'.y.sem[n].val == 1 && k'.s.running == k.s.running
  {
    hide Unblock;
    if n in k.y.sem && k.y.sem[n].waiters != [] {
      UnblockRuns(k.s, k.y.sem[n].waiters[0]);
    }
  }

  lemma UnblockRuns(s: Sched, t: Tid)
    requires Shape(s) && t in s.tcb
    ensures Unblock(s, t).running == s.running
  {
  }

  lemma GetQueues(k: Kernel, q: Qid, m: Mid)
    requires Formed(k) && q in k.y.ioq && GetTop(k, q).Next? && k.s.running !in k.y.sem[k.y.ioq[q].mtx].waiters
    ensures Waiters(GetTop(k, q).k, m) ==
            Waiters(k, m) + if Empty(k.y.ioq[q].ring) && k.y.ioq[q].mtx == m && k.y.sem[m].val == 0
              then [k.s.running] else []
  {
    hide DownOnce, Unblock, Pop;
    if Empty(k.y.ioq[q].ring) {
      DownQueues(k, k.y.ioq[q].mtx, ToWait(q, Consumer), m);
    }
  }

  lemma PutQueues(k: Kernel, q: Qid, b: Byte, m: Mid)
    requires Formed(k) && q in k.y.ioq && PutTop(k, q, b).Next? && k.s.running !in k.y.sem[k.y.ioq[q].mtx].waiters
    ensures Waiters(PutTop(k, q, b).k, m) ==
            Waiters(k, m) + if Full(k.y.ioq[q].ring) && k.y.ioq[q].mtx == m && k.y.sem[m].val == 0
              then [k.s.running] else []
  {
    hide DownOnce, Unblock, Push;
    if Full(k.y.ioq[q].ring) {
      DownQueues(k, k.y.ioq[q].mtx, ToWait(q, Producer(b)), m);
    }
  }

  lemma RunnerWaitsNowhere(k: Kernel)
    requires KInv(k)
    ensures forall m | m in k.y.sem :: k.s.running !in k.y.sem[m].waiters
  {
    hide QueuedBut, Exclusive, NoLostWakeup, PlaceInv, Rings;
  }

  /** The thread that queues goes to the back of its list; the thread that is woken was at the front; no other
      change. */
  lemma StepIsFifo(k: Kernel, a: Action, m: Mid)
    requires KInv(k) && Formed(k) && Enabled(k, a) && Step(k, a).Next?
    ensures Waiters(k, m) + Queued1(k, a, m) == Woken1(k, a, m) + Waiters(Step(k, a).k, m)
  {
    hide KInv, DownOnce, Up, GetTop, PutTop, Tick, MainSchedule, Create;
    RunnerWaitsNowhere(k);
    match a
    case Lock(n) => DownQueues(k, n, ToCaller, m);
    case Unlock(n) => UpWakes(k, n, m);
    case Get(q) => GetQueues(k, q, m);
    case Put(q, b) => PutQueues(k, q, b, m);
    case Resume => ResumeIsFifo(k, m);
    case _ =>
  }

  lemma ResumeIsFifo(k: Kernel, m: Mid)
    requires KInv(k) && Formed(k) && Enabled(k, Resume) && Step(k, Resume).Next?
    ensures Waiters(k, m) + Queued1(k, Resume, m) == Woken1(k, Resume, m) + Waiters(Step(k, Resume).k, m)
  {
    hide KInv, DownOnce, Up, GetTop, PutTop;
    RunnerWaitsNowhere(k);
    match k.y.place[k.s.running]
    case InDown(n, cont) => DownQueues(k, n, cont, m);
    case InWait(q, role) =>
      var n := k.y.ioq[q].mtx;
      UpWakes(k, n, m);
      UpWakes(k, n, n);
      var k' := Up(k, n).k;
      if role.Consumer? {
        GetQueues(k', q, m);
      } else {
        PutQueues(k', q, role.byte, m);
      }
  }

  ghost function QueuedIn(k: Kernel, run: seq<Action>, m: Mid): seq<Tid>
    decreases |run|
  {
    if run == [] || !Formed(k) || !Enabled(k, run[0]) || !Step(k, run[0]).Next? then []
    else Queued1(k, run[0], m) + QueuedIn(Step(k, run[0]).k, run[1..], m)
  }

  ghost function WokenIn(k: Kernel, run: seq<Action>, m: Mid): seq<Tid>
    decreases |run|
  {
    if run == [] || !Formed(k) || !Enabled(k, run[0]) || !Step(k, run[0]).Next? then []
    else Woken1(k, run[0], m) + WokenIn(Step(k, run[0]).k, run[1..], m)
  }

  /** Over a whole run: the threads waiting at first, then those that queued, in order, are the threads that were woken,
      in order, and then those still waiting. */
  lemma {:induction false} WaitersAreFifo(k0: Kernel, run: seq<Action>, k: Kernel, m: Mid)
    requires KInv(k0) && Reaches(k0, run, k)
    ensures Waiters(k0, m) + QueuedIn(k0, run, m) == WokenIn(k0, run, m) + Waiters(k, m)
    decreases |run|
  {
    hide KInv, Step, Enabled, Formed, Queued1, Woken1, Waiters;
    if run != [] {
      var k1 := Step(k0, run[0]).k;
      StepKeeps(k0, run[0]);
      StepIsFifo(k0, run[0], m);
      WaitersAreFifo(k1, run[1..], k, m);
      Regroup(Waiters(k0, m), Queued1(k0, run[0], m), QueuedIn(k1, run[1..], m),
              Woken1(k0, run[0], m), Waiters(k1, m), WokenIn(k1, run[1..], m), Waiters(k, m));
    }
  }

  lemma Regroup(w0: seq<Tid>, q: seq<Tid>, qs: seq<Tid>, o: seq<Tid>, w1: seq<Tid>, os: seq<Tid>, w: seq<Tid>)
    requires w0 + q == o + w1 && w1 + qs == os + w
    ensures w0 + (q + qs) == (o + os) + w
  {
    assert w0 + (q + qs) == (w0 + q) + qs;
    assert (o + w1) + qs == o + (w1 + qs);
    assert o + (os + w) == (o + os) + w;
  }
}

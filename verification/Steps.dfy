/** Every step of the machine as a relation between the state before and the state after, field by field, and the
    laws of locks and of the interrupt tail that follow for single steps and for whole runs. */
module Steps {
  import opened Options
  import opened Scheduling
  import opened RingBuffers
  import opened Synchronisation
  import opened KernelMachine
  import Lists = IntrusiveLists
  import P = Preemption
  import T = Turns

  // ----- the relation -----

  /** The running thread has mutex m, whose last unit it took; it goes on. */
  ghost predicate Locked(k: Kernel, m: Mid, k': Kernel)
    requires Formed(k) && m in k.y.sem
  {
    var r := k.s.running;
    && k'.s == k.s
    && k'.y == k.y.(sem := k.y.sem[m := Sem(0, k.y.sem[m].waiters)], place := k.y.place[r := Outside],
                    held := k.y.held[r := k.y.held[r] + {m}])
  }

  /** The running thread is last in m's waiter list, and asleep in sem_down. */
  ghost predicate Queues(k: Kernel, m: Mid, cont: Cont, k': Kernel)
    requires Formed(k) && m in k.y.sem
  {
    var r := k.s.running;
    && GaveUp(k.s, k'.s, Blocked)
    && k'.y == k.y.(sem := k.y.sem[m := Sem(0, k.y.sem[m].waiters + [r])], place := k.y.place[r := InDown(m, cont)])
  }

  /** The running thread has mutex m and sleeps in a slot of queue q. */
  ghost predicate Waits(k: Kernel, m: Mid, q: Qid, role: Role, k': Kernel)
    requires Formed(k) && m in k.y.sem && q in k.y.ioq
  {
    var r, i := k.s.running, k.y.ioq[q];
    && GaveUp(k.s, k'.s, Blocked)
    && k'.y == Sync(k.y.sem[m := Sem(0, k.y.sem[m].waiters)],
                    k.y.ioq[q := if role.Consumer? then Ioq(i.mtx, i.producer, Some(r), i.ring)
                                 else Ioq(i.mtx, Some(r), i.consumer, i.ring)],
                    k.y.place[r := InWait(q, role)], k.y.held[r := k.y.held[r] + {m}])
  }

  /** One pass of sem_down's loop. */
  ghost predicate Downs(k: Kernel, m: Mid, cont: Cont, k': Kernel)
    requires Formed(k) && m in k.y.sem && (cont.ToWait? ==> cont.q in k.y.ioq)
  {
    if k.y.sem[m].val == 0 then Queues(k, m, cont, k')
    else if cont.ToCaller? then Locked(k, m, k')
    else Waits(k, m, cont.q, cont.role, k')
  }

  /** Somebody was woken, or there was nobody to wake. */
  ghost predicate Woke(s: Sched, sleeper: Option<Tid>, s': Sched)
    requires Shape(s)
  {
    if sleeper.None? then s' == s else sleeper.value in s.tcb && WokenUp(s, s', sleeper.value)
  }

  ghost function First(w: seq<Tid>): Option<Tid> {
    if w == [] then None else Some(w[0])
  }

  /** Mutex m is free, its first waiter awake and out of the list, and the running thread goes on without it. */
  ghost predicate Frees(k: Kernel, m: Mid, k': Kernel)
    requires Formed(k) && m in k.y.sem
  {
    var r, w := k.s.running, k.y.sem[m].waiters;
    && Woke(k.s, First(w), k'.s)
    && k'.y == k.y.(sem := k.y.sem[m := Sem(1, if w == [] then [] else w[1..])], place := k.y.place[r := Outside],
                    held := k.y.held[r := k.y.held[r] - {m}])
  }

  /** ioq_getchar from the top of its loop: nothing unread, or the oldest unread byte goes and a producer wakes. */
  ghost predicate Gets(k: Kernel, q: Qid, k': Kernel)
    requires Formed(k) && q in k.y.ioq
  {
    var i := k.y.ioq[q];
    var n := |i.ring.got|;
    if i.ring.put == i.ring.got then Downs(k, i.mtx, ToWait(q, Consumer), k')
    else
      && n < |i.ring.put| && Woke(k.s, i.producer, k'.s)
      && k'.y == k.y.(ioq := k.y.ioq[q := Ioq(i.mtx, None, i.consumer,
           Ring(i.ring.buf, i.ring.head, (i.ring.tail + 1) % 64, i.ring.put, i.ring.got + [i.ring.put[n]]))])
  }

  /** ioq_putchar from the top of its loop: 63 bytes unread, or the byte joins them and a consumer wakes. */
  ghost predicate Puts(k: Kernel, q: Qid, b: Byte, k': Kernel)
    requires Formed(k) && q in k.y.ioq
  {
    var i := k.y.ioq[q];
    if |i.ring.put| - |i.ring.got| == 63 then Downs(k, i.mtx, ToWait(q, Producer(b)), k')
    else
      && Woke(k.s, i.consumer, k'.s)
      && k'.y == k.y.(ioq := k.y.ioq[q := Ioq(i.mtx, i.producer, None,
           Ring(i.ring.buf[i.ring.head := b], (i.ring.head + 1) % 64, i.ring.tail, i.ring.put + [b], i.ring.got))])
  }

  ghost predicate WaitEnds(k: Kernel, q: Qid, role: Role, k1: Kernel, k': Kernel)
    requires Formed(k) && q in k.y.ioq
  {
    && Frees(k, k.y.ioq[q].mtx, k1) && Formed(k1)
    && if role.Consumer? then Gets(k1, q, k') else Puts(k1, q, role.byte, k')
  }

  ghost predicate Resumes(k: Kernel, k': Kernel)
    requires Formed(k) && Enabled(k, Resume)
  {
    match k.y.place[k.s.running]
    case Outside => false
    case InDown(m, cont) => Downs(k, m, cont, k')
    case InWait(q, role) => exists k1 :: WaitEnds(k, q, role, k1, k')
  }

  /** A timer interrupt: the slice is over, or a tick of it. */
  ghost predicate Ticks(s: Sched, s': Sched)
    requires Shape(s)
  {
    var c := s.tcb[s.running];
    if c.ticks == 0 || s.need then Rotated(s, s')
    else s' == s.(tcb := s.tcb[s.running := Tcb(c.status, c.prio, c.ticks - 1)])
  }

  ghost predicate StepIs(k: Kernel, a: Action, k': Kernel)
    requires Formed(k) && Enabled(k, a)
  {
    match a
    case Lock(m) => Downs(k, m, ToCaller, k')
    case Unlock(m) => Frees(k, m, k')
    case Get(q) => Gets(k, q, k')
    case Put(q, b) => Puts(k, q, b, k')
    case Resume => Resumes(k, k')
    case Timer => k'.y == k.y && Ticks(k.s, k'.s)
    case Tail => k'.y == k.y && if k.s.need then Rotated(k.s, k'.s) else k'.s == k.s
    case Spawn(t, prio) =>
      && CameIn(k.s, k'.s, t, prio)
      && k'.y == k.y.(place := k.y.place[t := Outside], held := k.y.held[t := {}])
  }

  // ----- the relation leaves nothing open -----

  lemma OneMask(s: Sched, u: Sched)
    requires Masked(s) && Masked(u) && s.rq == u.rq
    ensures s.mask == u.mask
  {
  }

  lemma OneHead(s: Sched, u: Sched)
    requires AtHead(s) && AtHead(u) && s.rq == u.rq
    ensures s.running == u.running
  {
  }

  lemma OneGaveUp(s: Sched, s1: Sched, s2: Sched, status: Status)
    requires Shape(s) && GaveUp(s, s1, status) && GaveUp(s, s2, status)
    ensures s1 == s2
  {
    hide AtHead, Masked;
    OneHead(s1, s2);
    OneMask(s1, s2);
  }

  lemma OneRotated(s: Sched, s1: Sched, s2: Sched)
    requires Shape(s) && Rotated(s, s1) && Rotated(s, s2)
    ensures s1 == s2
  {
    hide AtHead, Masked;
    OneHead(s1, s2);
    OneMask(s1, s2);
    assert s1.tcb[s.running].ticks == s2.tcb[s.running].ticks;
  }

  lemma OneWokenUp(s: Sched, s1: Sched, s2: Sched, t: Tid)
    requires Shape(s) && t in s.tcb && WokenUp(s, s1, t) && WokenUp(s, s2, t)
    ensures s1 == s2
  {
    hide Masked;
    OneMask(s1, s2);
  }

  lemma OneCameIn(s: Sched, s1: Sched, s2: Sched, t: Tid, prio: nat)
    requires Shape(s) && prio < PRIO_NUM && CameIn(s, s1, t, prio) && CameIn(s, s2, t, prio)
    ensures s1 == s2
  {
    hide Masked;
    OneMask(s1, s2);
  }

  lemma OneWoke(s: Sched, t: Option<Tid>, s1: Sched, s2: Sched)
    requires Shape(s) && Woke(s, t, s1) && Woke(s, t, s2)
    ensures s1 == s2
  {
    hide WokenUp;
    if t.Some? {
      OneWokenUp(s, s1, s2, t.value);
    }
  }

  lemma OneDowns(k: Kernel, m: Mid, cont: Cont, k1: Kernel, k2: Kernel)
    requires Formed(k) && m in k.y.sem && (cont.ToWait? ==> cont.q in k.y.ioq)
    requires Downs(k, m, cont, k1) && Downs(k, m, cont, k2)
    ensures k1 == k2
  {
    hide GaveUp;
    if k.y.sem[m].val == 0 || cont.ToWait? {
      OneGaveUp(k.s, k1.s, k2.s, Blocked);
    }
  }

  lemma OneFrees(k: Kernel, m: Mid, k1: Kernel, k2: Kernel)
    requires Formed(k) && m in k.y.sem && Frees(k, m, k1) && Frees(k, m, k2)
    ensures k1 == k2
  {
    hide Woke;
    OneWoke(k.s, First(k.y.sem[m].waiters), k1.s, k2.s);
  }

  lemma OneGets(k: Kernel, q: Qid, k1: Kernel, k2: Kernel)
    requires Formed(k) && q in k.y.ioq && Gets(k, q, k1) && Gets(k, q, k2)
    ensures k1 == k2
  {
    hide Woke, Downs;
    var i := k.y.ioq[q];
    if i.ring.put == i.ring.got {
      OneDowns(k, i.mtx, ToWait(q, Consumer), k1, k2);
    } else {
      OneWoke(k.s, i.producer, k1.s, k2.s);
    }
  }

  lemma OnePuts(k: Kernel, q: Qid, b: Byte, k1: Kernel, k2: Kernel)
    requires Formed(k) && q in k.y.ioq && Puts(k, q, b, k1) && Puts(k, q, b, k2)
    ensures k1 == k2
  {
    hide Woke, Downs;
    var i := k.y.ioq[q];
    if |i.ring.put| - |i.ring.got| == 63 {
      OneDowns(k, i.mtx, ToWait(q, Producer(b)), k1, k2);
    } else {
      OneWoke(k.s, i.consumer, k1.s, k2.s);
    }
  }

  lemma OneWaitEnds(k: Kernel, q: Qid, role: Role, j1: Kernel, k1: Kernel, j2: Kernel, k2: Kernel)
    requires Formed(k) && q in k.y.ioq && WaitEnds(k, q, role, j1, k1) && WaitEnds(k, q, role, j2, k2)
    ensures j1 == j2 && k1 == k2
  {
    hide Woke, Gets, Puts;
    OneFrees(k, k.y.ioq[q].mtx, j1, j2);
    if role.Consumer? { OneGets(j1, q, k1, k2); } else { OnePuts(j1, q, role.byte, k1, k2); }
  }

  lemma OneStep(k: Kernel, a: Action, k1: Kernel, k2: Kernel)
    requires Formed(k) && Enabled(k, a) && StepIs(k, a, k1) && StepIs(k, a, k2)
    ensures k1 == k2
  {
    hide Downs, Frees, Gets, Puts, WaitEnds, Rotated, CameIn;
    match a
    case Lock(m) => OneDowns(k, m, ToCaller, k1, k2);
    case Unlock(m) => OneFrees(k, m, k1, k2);
    case Get(q) => OneGets(k, q, k1, k2);
    case Put(q, b) => OnePuts(k, q, b, k1, k2);
    case Resume => OneResumes(k, k1, k2);
    case Timer => if k.s.tcb[k.s.running].ticks == 0 || k.s.need { OneRotated(k.s, k1.s, k2.s); }
    case Tail => if k.s.need { OneRotated(k.s, k1.s, k2.s); }
    case Spawn(t, prio) => OneCameIn(k.s, k1.s, k2.s, t, prio);
  }

  lemma OneResumes(k: Kernel, k1: Kernel, k2: Kernel)
    requires Formed(k) && Enabled(k, Resume) && Resumes(k, k1) && Resumes(k, k2)
    ensures k1 == k2
  {
    hide Downs, WaitEnds;
    match k.y.place[k.s.running]
    case Outside =>
    case InDown(m, cont) => OneDowns(k, m, cont, k1, k2);
    case InWait(q, role) =>
      var j1 :| WaitEnds(k, q, role, j1, k1);
      var j2 :| WaitEnds(k, q, role, j2, k2);
      OneWaitEnds(k, q, role, j1, k1, j2, k2);
  }

  // ----- the steps are in the relation -----

  lemma SleepIs(k: Kernel, y: Sync)
    requires KInv(k) && Formed(k.(y := y)) && Sleep(k.(y := y)).Next?
    ensures Sleep(k.(y := y)).k.y == y && GaveUp(k.s, Sleep(k.(y := y)).k.s, Blocked)
  {
    hide Inv, SyncInv, Block, GaveUp;
    BlockKeeps(k.s, Blocked);
  }

  lemma WakeIs(k: Kernel, y: Sync, t: Tid)
    requires KInv(k) && Formed(k.(y := y)) && t in BlockedSet(k.s)
    ensures Wake(k.(y := y), t) == Next(Kernel(Unblock(k.s, t), y)) && Woke(k.s, Some(t), Unblock(k.s, t))
  {
    hide Inv, SyncInv, Unblock, WokenUp;
    UnblockKeeps(k.s, t);
  }

  lemma ValIs(k: Kernel, m: Mid)
    requires KInv(k) && m in k.y.sem
    ensures k.y.sem[m].val <= 1
    ensures k.s.running in k.y.held && m in k.y.held[k.s.running] ==> k.y.sem[m].val == 0
  {
    hide Inv, WaitersExact, NoLostWakeup, PlaceInv, Rings;
  }

  lemma DownIs(k: Kernel, m: Mid, cont: Cont)
    requires KInv(k) && Formed(k) && m in k.y.sem && (cont.ToWait? ==> cont.q in k.y.ioq)
    requires DownOnce(k, m, cont).Next?
    ensures Downs(k, m, cont, DownOnce(k, m, cont).k)
  {
    hide KInv, Sleep, GaveUp;
    var r, k' := k.s.running, DownOnce(k, m, cont).k;
    ValIs(k, m);
    T.NotWaiting(k, m);
    if k.y.sem[m].val == 0 {
      SleepIs(k, Enqueue(k.y, r, m, cont));
    } else if cont.ToWait? {
      var y := Await(Take(k.y, r, m), r, cont.q, cont.role);
      SleepIs(k, y);
      assert k.y.place[r := Outside][r := InWait(cont.q, cont.role)] == k.y.place[r := InWait(cont.q, cont.role)];
    }
  }

  lemma UpIs(k: Kernel, m: Mid)
    requires KInv(k) && Formed(k) && m in k.y.sem && m in k.y.held[k.s.running] && Up(k, m).Next?
    ensures Frees(k, m, Up(k, m).k)
  {
    hide KInv, Wake, WokenUp;
    ValIs(k, m);
    var w := k.y.sem[m].waiters;
    if w != [] {
      T.WaitersSleep(k, m);
      WakeIs(k, Release(k.y, k.s.running, m), w[0]);
    }
  }

  lemma GetIs(k: Kernel, q: Qid)
    requires KInv(k) && Formed(k) && q in k.y.ioq && GetTop(k, q).Next?
    ensures Gets(k, q, GetTop(k, q).k)
  {
    hide KInv, Wake, WokenUp, Downs, DownOnce;
    var i := k.y.ioq[q];
    T.RingAt(k, q);
    Capacity(i.ring);
    if Empty(i.ring) {
      DownIs(k, i.mtx, ToWait(q, Consumer));
    } else {
      PopKeeps(i.ring);
      if i.producer.Some? {
        T.SleepersAre(k, q);
        WakeIs(k, SetRing(k.y, q, Pop(i.ring)), i.producer.value);
      }
    }
  }

  lemma PutIs(k: Kernel, q: Qid, b: Byte)
    requires KInv(k) && Formed(k) && q in k.y.ioq && PutTop(k, q, b).Next?
    ensures Puts(k, q, b, PutTop(k, q, b).k)
  {
    hide KInv, Wake, WokenUp, Downs, DownOnce;
    var i := k.y.ioq[q];
    T.RingAt(k, q);
    Capacity(i.ring);
    if Full(i.ring) {
      DownIs(k, i.mtx, ToWait(q, Producer(b)));
    } else if i.consumer.Some? {
      T.SleepersAre(k, q);
      WakeIs(k, SetRing(k.y, q, Push(i.ring, b)), i.consumer.value);
    }
  }

  lemma ResumeIs(k: Kernel)
    requires KInv(k) && Formed(k) && Enabled(k, Resume) && Step(k, Resume).Next?
    ensures Resumes(k, Step(k, Resume).k)
  {
    hide KInv, Up, GetTop, PutTop, DownOnce, Downs, Frees, Gets, Puts;
    match k.y.place[k.s.running]
    case InDown(m, cont) => DownIs(k, m, cont);
    case InWait(q, role) =>
      T.OwnsIt(k, q);
      UpIs(k, k.y.ioq[q].mtx);
      WaiterUps(k);
      var k1, k' := Up(k, k.y.ioq[q].mtx).k, Step(k, Resume).k;
      if role.Consumer? { GetIs(k1, q); } else { PutIs(k1, q, role.byte); }
      assert WaitEnds(k, q, role, k1, k');
  }

  lemma StepIsSo(k: Kernel, a: Action)
    requires KInv(k) && Formed(k) && Enabled(k, a) && Step(k, a).Next?
    ensures StepIs(k, a, Step(k, a).k)
  {
    hide Inv, SyncInv, Simple, Up, GetTop, PutTop, DownOnce, Downs, Frees, Gets, Puts, Resumes, Rotated, CameIn;
    hide Tick, MainSchedule, Create;
    match a
    case Lock(m) => DownIs(k, m, ToCaller);
    case Unlock(m) => UpIs(k, m);
    case Get(q) => GetIs(k, q);
    case Put(q, b) => PutIs(k, q, b);
    case Resume => ResumeIs(k);
    case Timer => TickKeeps(k.s);
    case Tail => MainScheduleKeeps(k.s);
    case Spawn(t, prio) => CreateKeeps(k.s, t, prio);
  }

  // ----- and nothing else is -----

  /** Only a ready thread can take over the processor. */
  lemma TakenOver(s: Sched, s': Sched, status: Status)
    requires Inv(s) && GaveUp(s, s', status)
    ensures s'.running in s.tcb && s'.running != s.running && Live(s, s'.running)
  {
    var p: nat :| p < |s'.rq| && s'.rq[p] != [] && s'.rq[p][0] == s'.running;
    assert s'.running in s'.rq[p];
    assert s'.running in s.rq[p];
  }

  /** Where next_thread_pick finds nobody, the relation has nothing. */
  lemma DownsToNobody(k: Kernel, m: Mid, cont: Cont, k': Kernel)
    requires KInv(k) && Formed(k) && m in k.y.sem && (cont.ToWait? ==> cont.q in k.y.ioq)
    requires OthersBlocked(k) && Downs(k, m, cont, k')
    ensures k.y.sem[m].val > 0 && cont.ToCaller?
  {
    hide Inv, SyncInv, GaveUp;
    if k.y.sem[m].val == 0 || cont.ToWait? {
      TakenOver(k.s, k'.s, Blocked);
    }
  }

  lemma ResumesToNobody(k: Kernel, k': Kernel)
    requires KInv(k) && Formed(k) && Enabled(k, Resume) && Blocks(k, Resume) && OthersBlocked(k)
    ensures !Resumes(k, k')
  {
    hide KInv, Downs, OthersBlocked, Up;
    match k.y.place[k.s.running]
    case InDown(m, cont) =>
      if Downs(k, m, cont, k') { DownsToNobody(k, m, cont, k'); }
    case InWait(q, role) =>
      if k1 :| WaitEnds(k, q, role, k1, k') {
        NobodyWoken(k, q, k1);
        T.RingAt(k1, q);
        Capacity(k1.y.ioq[q].ring);
        DownsToNobody(k1, k1.y.ioq[q].mtx, ToWait(q, role), k');
      }
  }

  /** With no waiter the first half of a resumed ioq_wait wakes nobody. */
  lemma NobodyWoken(k: Kernel, q: Qid, k1: Kernel)
    requires KInv(k) && Formed(k) && Enabled(k, Resume) && OthersBlocked(k)
    requires k.y.place[k.s.running].InWait? && k.y.place[k.s.running].q == q && k.y.sem[k.y.ioq[q].mtx].waiters == []
    requires Frees(k, k.y.ioq[q].mtx, k1)
    ensures KInv(k1) && OthersBlocked(k1) && k1.y.ioq == k.y.ioq && Formed(k1)
  {
    hide KInv, Up;
    var m := k.y.ioq[q].mtx;
    T.OwnsIt(k, q);
    WaiterUps(k);
    UpIs(k, m);
    OneFrees(k, m, k1, Up(k, m).k);
  }

  lemma NothingElse(k: Kernel, a: Action, k': Kernel)
    requires KInv(k) && Formed(k) && Enabled(k, a) && Blocks(k, a) && OthersBlocked(k)
    ensures !StepIs(k, a, k')
  {
    hide KInv, Downs, OthersBlocked, Resumes;
    match a
    case Lock(m) => if Downs(k, m, ToCaller, k') { DownsToNobody(k, m, ToCaller, k'); }
    case Get(q) =>
      T.RingAt(k, q);
      Capacity(k.y.ioq[q].ring);
      if Gets(k, q, k') { DownsToNobody(k, k.y.ioq[q].mtx, ToWait(q, Consumer), k'); }
    case Put(q, b) =>
      T.RingAt(k, q);
      Capacity(k.y.ioq[q].ring);
      if Puts(k, q, b, k') { DownsToNobody(k, k.y.ioq[q].mtx, ToWait(q, Producer(b)), k'); }
    case Resume => ResumesToNobody(k, k');
  }

  /** A step goes through to a state exactly if the relation says so. */
  lemma StepExactly(k: Kernel, a: Action, k': Kernel)
    requires KInv(k) && Formed(k) && Enabled(k, a)
    ensures Step(k, a) == Next(k') <==> StepIs(k, a, k')
  {
    hide KInv, Step, StepIs, Blocks, OthersBlocked, Enabled, Formed;
    StepKeeps(k, a);
    if Step(k, a).Next? {
      StepIsSo(k, a);
      if StepIs(k, a, k') { OneStep(k, a, k', Step(k, a).k); }
    } else {
      NothingElse(k, a, k');
    }
  }

  // ----- locks -----

  /** sem_down for a mutex that is free, on behalf of mutex_lock: the caller has it, alone, and nothing else changes. */
  lemma LockTakes(k: Kernel, a: Action, m: Mid)
    requires KInv(k) && Formed(k) && Enabled(k, a) && m in k.y.sem && k.y.sem[m].val > 0
    requires a == Lock(m) || (a == Resume && k.y.place[k.s.running] == InDown(m, ToCaller))
    ensures Step(k, a).Next?
    ensures var r, k' := k.s.running, Step(k, a).k;
            && k'.y.sem == k.y.sem[m := Sem(0, k.y.sem[m].waiters)] && Holders(k', m) == {r}
            && k'.y.held == k.y.held[r := k.y.held[r] + {m}] && k'.y.place == k.y.place[r := Outside]
            && k'.y.ioq == k.y.ioq && k'.s == k.s
  {
    hide KInv, Step, OthersBlocked;
    StepKeeps(k, a);
    StepIsSo(k, a);
    FreeMeansNobody(k, m);
  }

  lemma FreeMeansNobody(k: Kernel, m: Mid)
    requires KInv(k) && m in k.y.sem
    ensures k.y.sem[m].val > 0 ==> Holders(k, m) == {}
    ensures forall t | t in Holders(k, m) :: Holders(k, m) == {t}
  {
    hide Inv, WaitersExact, NoLostWakeup, PlaceInv, Rings;
  }

  /** mutex_unlock: the mutex is free and nobody has it, whether or not somebody waited; the first waiter, if any, is
      ready at the front of its queue and out of the list, and nothing else changes. */
  lemma UnlockGives(k: Kernel, m: Mid)
    requires KInv(k) && Formed(k) && Enabled(k, Unlock(m))
    ensures Step(k, Unlock(m)).Next?
    ensures var r, w, k' := k.s.running, k.y.sem[m].waiters, Step(k, Unlock(m)).k;
            && k'.y.sem == k.y.sem[m := Sem(1, if w == [] then [] else w[1..])] && Holders(k', m) == {}
            && k'.y.held == k.y.held[r := k.y.held[r] - {m}] && k'.y.place == k.y.place && k'.y.ioq == k.y.ioq
            && if w == [] then k'.s == k.s else w[0] in k.s.tcb && WokenUp(k.s, k'.s, w[0])
  {
    hide KInv, Step, OthersBlocked, WokenUp;
    StepKeeps(k, Unlock(m));
    StepIsSo(k, Unlock(m));
    FreeMeansNobody(k, m);
    FreeMeansNobody(Step(k, Unlock(m)).k, m);
  }

  // ----- locks over whole runs -----

  datatype Change = Locks | Unlocks

  /** Nothing to get, or no room to put. */
  ghost predicate Stuck(i: Ioq, role: Role) {
    if role.Consumer? then i.ring.put == i.ring.got else |i.ring.put| - |i.ring.got| == 63
  }

  /** The calls of mutex_lock and mutex_unlock on m, the I/O queue's own included, that the step completes for thread t.
      A resumed ioq_wait unlocks; if it has to wait again it locks the mutex that it just freed. */
  ghost function Completes(k: Kernel, a: Action, t: Tid, m: Mid): seq<Change>
    requires Formed(k) && Enabled(k, a)
  {
    if t != k.s.running || m !in k.y.sem then []
    else
      var locks := if k.y.sem[m].val > 0 then [Locks] else [];
      match a
      case Lock(n) => if n == m then locks else []
      case Unlock(n) => if n == m then [Unlocks] else []
      case Get(q) => if k.y.ioq[q].mtx == m && Stuck(k.y.ioq[q], Consumer) then locks else []
      case Put(q, b) => if k.y.ioq[q].mtx == m && Stuck(k.y.ioq[q], Producer(b)) then locks else []
      case Resume =>
        (match k.y.place[t]
         case InDown(n, _) => if n == m then locks else []
         case InWait(q, role) =>
           if k.y.ioq[q].mtx != m then [] else [Unlocks] + if Stuck(k.y.ioq[q], role) then [Locks] else []
         case Outside => [])
      case _ => []
  }

  /** All that a run completes, in order. */
  ghost function History(k: Kernel, run: seq<Action>, t: Tid, m: Mid): seq<Change>
    decreases |run|
  {
    if run == [] || !Formed(k) || !Enabled(k, run[0]) || !Step(k, run[0]).Next? then []
    else Completes(k, run[0], t, m) + History(Step(k, run[0]).k, run[1..], t, m)
  }

  predicate Has(y: Sync, t: Tid, m: Mid) {
    t in y.held && m in y.held[t]
  }

  /** Whether the last of the calls was a lock; without any, as it was. */
  predicate After(had: bool, h: seq<Change>) {
    if h == [] then had else h[|h| - 1].Locks?
  }

  lemma DownsHas(k: Kernel, n: Mid, cont: Cont, k': Kernel, t: Tid, m: Mid)
    requires Formed(k) && n in k.y.sem && (cont.ToWait? ==> cont.q in k.y.ioq) && Downs(k, n, cont, k')
    ensures Has(k'.y, t, m) <==> Has(k.y, t, m) || (t == k.s.running && m == n && k.y.sem[m].val > 0)
    ensures k'.y.sem.Keys == k.y.sem.Keys
  {
    hide GaveUp;
  }

  lemma GetsHas(k: Kernel, q: Qid, k': Kernel, t: Tid, m: Mid)
    requires Formed(k) && q in k.y.ioq && Gets(k, q, k')
    ensures Has(k'.y, t, m)
            <==> Has(k.y, t, m)
                 || (t == k.s.running && k.y.ioq[q].mtx == m && k.y.sem[m].val > 0 && Stuck(k.y.ioq[q], Consumer))
  {
    hide Downs, Woke;
    if Stuck(k.y.ioq[q], Consumer) { DownsHas(k, k.y.ioq[q].mtx, ToWait(q, Consumer), k', t, m); }
  }

  lemma PutsHas(k: Kernel, q: Qid, b: Byte, k': Kernel, t: Tid, m: Mid)
    requires Formed(k) && q in k.y.ioq && Puts(k, q, b, k')
    ensures Has(k'.y, t, m)
            <==> Has(k.y, t, m)
                 || (t == k.s.running && k.y.ioq[q].mtx == m && k.y.sem[m].val > 0 && Stuck(k.y.ioq[q], Producer(b)))
  {
    hide Downs, Woke;
    if Stuck(k.y.ioq[q], Producer(b)) { DownsHas(k, k.y.ioq[q].mtx, ToWait(q, Producer(b)), k', t, m); }
  }

  lemma FreesHas(k: Kernel, n: Mid, k': Kernel, t: Tid, m: Mid)
    requires Formed(k) && n in k.y.sem && Frees(k, n, k')
    ensures Has(k'.y, t, m) <==> Has(k.y, t, m) && !(t == k.s.running && m == n)
    ensures k'.y.ioq == k.y.ioq && n in k'.y.sem && k'.y.sem[n].val == 1 && k'.s.running == k.s.running
  {
  }

  lemma ResumesHas(k: Kernel, k': Kernel, t: Tid, m: Mid)
    requires Formed(k) && Enabled(k, Resume) && Resumes(k, k')
    ensures Has(k'.y, t, m) <==> After(Has(k.y, t, m), Completes(k, Resume, t, m))
  {
    hide Downs, Frees, Gets, Puts;
    match k.y.place[k.s.running]
    case Outside =>
    case InDown(n, cont) => DownsHas(k, n, cont, k', t, m);
    case InWait(q, role) =>
      var k1 :| WaitEnds(k, q, role, k1, k');
      FreesHas(k, k.y.ioq[q].mtx, k1, t, m);
      if role.Consumer? { GetsHas(k1, q, k', t, m); } else { PutsHas(k1, q, role.byte, k', t, m); }
  }

  lemma StepHas(k: Kernel, a: Action, k': Kernel, t: Tid, m: Mid)
    requires Formed(k) && Enabled(k, a) && StepIs(k, a, k')
    ensures Has(k'.y, t, m) <==> After(Has(k.y, t, m), Completes(k, a, t, m))
  {
    hide Downs, Frees, Gets, Puts, Resumes, Rotated, CameIn;
    match a
    case Lock(n) => DownsHas(k, n, ToCaller, k', t, m);
    case Unlock(n) => FreesHas(k, n, k', t, m);
    case Get(q) => GetsHas(k, q, k', t, m);
    case Put(q, b) => PutsHas(k, q, b, k', t, m);
    case Resume => ResumesHas(k, k', t, m);
    case _ =>
  }

  /** Over whole runs: a thread has a mutex exactly if the last lock or unlock of it that the thread completed was a
      lock. */
  lemma {:induction false} HasSinceItsLock(k0: Kernel, run: seq<Action>, k: Kernel, t: Tid, m: Mid)
    requires KInv(k0) && Reaches(k0, run, k)
    ensures Has(k.y, t, m) <==> After(Has(k0.y, t, m), History(k0, run, t, m))
    decreases |run|
  {
    hide KInv, Formed, Enabled, Step, Completes, StepIs, Has;
    if run != [] {
      var k1 := Step(k0, run[0]).k;
      StepKeeps(k0, run[0]);
      StepIsSo(k0, run[0]);
      StepHas(k0, run[0], k1, t, m);
      HasSinceItsLock(k1, run[1..], k, t, m);
    }
  }

  /** So two threads never have completed a lock of the same mutex last, and while one has, its value is 0. */
  lemma LocksExclude(k0: Kernel, run: seq<Action>, k: Kernel, t: Tid, u: Tid, m: Mid)
    requires KInv(k0) && Reaches(k0, run, k) && t != u
    requires After(Has(k0.y, t, m), History(k0, run, t, m))
    ensures !After(Has(k0.y, u, m), History(k0, run, u, m)) && m in k.y.sem && k.y.sem[m].val == 0
  {
    hide Inv, WaitersExact, NoLostWakeup, PlaceInv, Rings, Reaches, Formed, Enabled, Step, History;
    RunKeeps(k0, run, k);
    HasSinceItsLock(k0, run, k, t, m);
    HasSinceItsLock(k0, run, k, u, m);
  }

  // ----- slices over whole runs -----

  lemma DownsAllowed(k: Kernel, m: Mid, cont: Cont, k': Kernel)
    requires Formed(k) && m in k.y.sem && (cont.ToWait? ==> cont.q in k.y.ioq) && Downs(k, m, cont, k') && Allowed(k.s)
    ensures Allowed(k'.s)
  {
    hide AtHead, Masked;
  }

  lemma WokeAllowed(s: Sched, sleeper: Option<Tid>, s': Sched)
    requires Shape(s) && Woke(s, sleeper, s') && Allowed(s)
    ensures Allowed(s')
  {
    hide Masked;
  }

  lemma GetsAllowed(k: Kernel, q: Qid, k': Kernel)
    requires Formed(k) && q in k.y.ioq && Gets(k, q, k') && Allowed(k.s)
    ensures Allowed(k'.s)
  {
    hide Downs, Woke, Allowed;
    if Stuck(k.y.ioq[q], Consumer) { DownsAllowed(k, k.y.ioq[q].mtx, ToWait(q, Consumer), k'); }
    else { WokeAllowed(k.s, k.y.ioq[q].producer, k'.s); }
  }

  lemma PutsAllowed(k: Kernel, q: Qid, b: Byte, k': Kernel)
    requires Formed(k) && q in k.y.ioq && Puts(k, q, b, k') && Allowed(k.s)
    ensures Allowed(k'.s)
  {
    hide Downs, Woke, Allowed;
    if Stuck(k.y.ioq[q], Producer(b)) { DownsAllowed(k, k.y.ioq[q].mtx, ToWait(q, Producer(b)), k'); }
    else { WokeAllowed(k.s, k.y.ioq[q].consumer, k'.s); }
  }

  lemma SwitchAllowed(s: Sched, s': Sched)
    requires Shape(s) && Allowed(s) && Rotated(s, s')
    ensures Allowed(s')
  {
    hide AtHead, Masked;
  }

  lemma ResumesAllowed(k: Kernel, k': Kernel)
    requires Formed(k) && Enabled(k, Resume) && Resumes(k, k') && Allowed(k.s)
    ensures Allowed(k'.s)
  {
    hide Downs, Frees, Gets, Puts, Allowed;
    match k.y.place[k.s.running]
    case Outside =>
    case InDown(m, cont) => DownsAllowed(k, m, cont, k');
    case InWait(q, role) =>
      var k1 :| WaitEnds(k, q, role, k1, k');
      FreesAllowed(k, k.y.ioq[q].mtx, k1);
      if role.Consumer? { GetsAllowed(k1, q, k'); } else { PutsAllowed(k1, q, role.byte, k'); }
  }

  lemma StepAllowed(k: Kernel, a: Action, k': Kernel)
    requires Formed(k) && Enabled(k, a) && StepIs(k, a, k') && Allowed(k.s)
    ensures Allowed(k'.s)
  {
    hide Downs, Frees, Gets, Puts, Resumes, Rotated, Masked;
    match a
    case Lock(m) => DownsAllowed(k, m, ToCaller, k');
    case Unlock(m) => FreesAllowed(k, m, k');
    case Get(q) => GetsAllowed(k, q, k');
    case Put(q, b) => PutsAllowed(k, q, b, k');
    case Resume => ResumesAllowed(k, k');
    case Timer => if k.s.tcb[k.s.running].ticks == 0 || k.s.need { SwitchAllowed(k.s, k'.s); }
    case Tail => if k.s.need { SwitchAllowed(k.s, k'.s); }
    case Spawn(t, prio) =>
  }

  lemma FreesAllowed(k: Kernel, m: Mid, k': Kernel)
    requires Formed(k) && m in k.y.sem && Frees(k, m, k') && Allowed(k.s)
    ensures Allowed(k'.s) && k'.y.ioq == k.y.ioq
  {
    hide Woke, Allowed;
    WokeAllowed(k.s, First(k.y.sem[m].waiters), k'.s);
  }

  /** In every run no slice is ever longer than its priority's allowance. */
  lemma {:induction false} SlicesFit(k0: Kernel, run: seq<Action>, k: Kernel)
    requires KInv(k0) && Reaches(k0, run, k) && Allowed(k0.s)
    ensures Allowed(k.s)
    decreases |run|
  {
    hide KInv, Formed, Enabled, Step, StepIs, Allowed;
    if run != [] {
      StepKeeps(k0, run[0]);
      StepIsSo(k0, run[0]);
      StepAllowed(k0, run[0], Step(k0, run[0]).k);
      SlicesFit(Step(k0, run[0]).k, run[1..], k);
    }
  }

  // ----- the interrupt tail -----

  /** The tail of a non-timer interrupt: with a switch due the running thread is demoted and the head of the smallest
      queue runs; with none due nothing changes. */
  lemma TailSchedules(k: Kernel)
    requires KInv(k) && Formed(k) && Enabled(k, Tail)
    ensures Step(k, Tail).Next? && Step(k, Tail).k.y == k.y && !Step(k, Tail).k.s.need
    ensures if k.s.need then Rotated(k.s, Step(k, Tail).k.s) else Step(k, Tail).k == k
  {
    hide Inv, SyncInv, Simple, Rotated, MainSchedule, OthersBlocked;
    StepKeeps(k, Tail);
    MainScheduleKeeps(k.s);
    if k.s.need {
      NoneDue(k.s, Step(k, Tail).k.s);
    }
  }

  /** After the tail some other thread t runs iff a switch was due, t outranks or equals everybody, the demoted thread
      included, and t is first of its queue but for that thread. */
  lemma TailDispatches(k: Kernel, t: Tid)
    requires KInv(k) && Formed(k) && Enabled(k, Tail) && Live(k.s, t) && t != k.s.running
    ensures Step(k, Tail).Next?
    ensures var q, n, r := Prio(k.s, t), (Prio(k.s, k.s.running) + 1) % 32, k.s.running;
            Step(k, Tail).k.s.running == t
            <==> && k.s.need && q <= n
                 && (forall u | u in k.s.tcb && Live(k.s, u) && u != r :: q <= Prio(k.s, u))
                 && Lists.Without(k.s.rq[q], r) != [] && Lists.Without(k.s.rq[q], r)[0] == t
  {
    hide Inv, SyncInv, Simple, Rotated, MainSchedule, Lists.Without, OthersBlocked;
    TailSchedules(k);
    if k.s.need {
      P.NextAfterDemotion(k.s, t);
    }
  }

  lemma NoneDue(s: Sched, s': Sched)
    requires Shape(s) && Rotated(s, s')
    ensures !s'.need
  {
  }

  /** The step wakes thread t and goes on: a byte for a sleeping consumer, room for a sleeping producer, a mutex for its
      first waiter. */
  ghost predicate Wakes(k: Kernel, a: Action, t: Tid)
    requires Formed(k) && Enabled(k, a)
  {
    match a
    case Put(q, _) => |k.y.ioq[q].ring.put| - |k.y.ioq[q].ring.got| < 63 && k.y.ioq[q].consumer == Some(t)
    case Get(q) => k.y.ioq[q].ring.put != k.y.ioq[q].ring.got && k.y.ioq[q].producer == Some(t)
    case Unlock(m) => k.y.sem[m].waiters != [] && k.y.sem[m].waiters[0] == t
    case _ => false
  }

  lemma WakesIt(k: Kernel, a: Action, t: Tid)
    requires KInv(k) && Formed(k) && Enabled(k, a) && Wakes(k, a, t)
    ensures t in k.s.tcb && !Live(k.s, t)
    ensures Step(k, a).Next? && Step(k, a).k.s == Unblock(k.s, t)
    ensures k.s.running in Step(k, a).k.y.place && Step(k, a).k.y.place[k.s.running].Outside?
  {
    hide KInv, Step, OthersBlocked, WokenUp, Unblock, Downs;
    StepKeeps(k, a);
    match a {
      case Put(q, _) => T.RingAt(k, q); Capacity(k.y.ioq[q].ring); T.SleepersAre(k, q);
      case Get(q) => T.RingAt(k, q); Capacity(k.y.ioq[q].ring); T.SleepersAre(k, q);
      case Unlock(m) => T.WaitersSleep(k, m);
    }
    StepIsSo(k, a);
    WokenOnce(k, Step(k, a).k.s, t);
  }

  lemma WokenOnce(k: Kernel, s': Sched, t: Tid)
    requires KInv(k) && t in BlockedSet(k.s) && WokenUp(k.s, s', t)
    ensures s' == Unblock(k.s, t)
  {
    hide QueuedBut, SyncInv, Unblock, WokenUp;
    UnblockKeeps(k.s, t);
    OneWokenUp(k.s, s', Unblock(k.s, t), t);
  }

  /** A step that wakes t, then the tail: t runs iff a switch was due or t outranks the running thread, and neither that
      thread, once it is demoted, nor any other live one outranks t. Otherwise, with no switch due, the running thread
      goes on. */
  lemma WakeThenTail(k: Kernel, a: Action, t: Tid) returns (k1: Kernel, k2: Kernel)
    requires KInv(k) && Formed(k) && Enabled(k, a) && Wakes(k, a, t)
    ensures Step(k, a) == Next(k1) && Formed(k1) && Enabled(k1, Tail) && Step(k1, Tail) == Next(k2)
    ensures k2.y == k1.y && !k2.s.need && t in k.s.tcb
    ensures var q, p := Prio(k.s, t), Prio(k.s, k.s.running);
            && (k2.s.running == t
                <==> && (k.s.need || q < p) && q <= (p + 1) % 32
                     && forall u | u in k.s.tcb && Live(k.s, u) && u != k.s.running :: q <= Prio(k.s, u))
            && (!k.s.need && p <= q ==> k2.s.running == k.s.running)
  {
    hide QueuedBut, SyncInv, Simple, Unblock, MainSchedule, OthersBlocked, Wakes, Rotated, WokenUp;
    WakesIt(k, a, t);
    StepKeeps(k, a);
    k1 := Step(k, a).k;
    InvFormed(k1);
    UnblockKeeps(k.s, t);
    P.WokenRunsNext(k.s, t);
    TailSchedules(k1);
    k2 := Step(k1, Tail).k;
  }

  /** A new thread, then the tail: it must outrank every other live thread strictly, and the demoted one or equal it. */
  lemma SpawnThenTail(k: Kernel, t: Tid, prio: nat) returns (k1: Kernel, k2: Kernel)
    requires KInv(k) && Formed(k) && Enabled(k, Spawn(t, prio))
    ensures Step(k, Spawn(t, prio)) == Next(k1) && Formed(k1) && Enabled(k1, Tail) && Step(k1, Tail) == Next(k2)
    ensures k2.y == k1.y && !k2.s.need
    ensures var p := Prio(k.s, k.s.running);
            && (k2.s.running == t
                <==> && (k.s.need || prio < p) && prio <= (p + 1) % 32
                     && forall u | u in k.s.tcb && Live(k.s, u) && u != k.s.running :: prio < Prio(k.s, u))
            && (!k.s.need && p <= prio ==> k2.s.running == k.s.running)
  {
    hide QueuedBut, SyncInv, Simple, Create, MainSchedule, OthersBlocked, Rotated, CameIn;
    StepKeeps(k, Spawn(t, prio));
    k1 := Step(k, Spawn(t, prio)).k;
    InvFormed(k1);
    CreateKeeps(k.s, t, prio);
    P.CreatedRunsNext(k.s, t, prio);
    TailSchedules(k1);
    k2 := Step(k1, Tail).k;
  }
}

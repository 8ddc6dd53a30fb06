/** The whole machine: the scheduler and the synchronisation state, moved by atomic steps of the running thread. */
module KernelMachine {
  import opened Options
  import opened Scheduling
  import opened RingBuffers
  import opened Synchronisation
  import P = Preemption

  datatype Kernel = Kernel(s: Sched, y: Sync)

  /** A step ends in a state, in a failed ASSERT, or with next_thread_pick finding no ready thread at all. */
  datatype Outcome = Next(k: Kernel) | NoReady | Panic

  datatype Action =
    | Lock(m: Mid) | Unlock(m: Mid) | Get(q: Qid) | Put(q: Qid, byte: Byte)
    | Resume | Timer | Tail | Spawn(t: Tid, prio: nat)

  ghost predicate Formed(k: Kernel) {
    && Shape(k.s)
    && k.y.place.Keys == k.s.tcb.Keys == k.y.held.Keys
    && (forall q | q in k.y.ioq :: k.y.ioq[q].mtx in k.y.sem && Indexed(k.y.ioq[q].ring))
  }

  // ----- thread_block and thread_unblock -----

  ghost function Sleep(k: Kernel): Outcome
    requires Formed(k)
  {
    match Block(k.s, Blocked)
    case None => NoReady
    case Some(s') => Next(k.(s := s'))
  }

  ghost function Wake(k: Kernel, t: Tid): (o: Outcome)
    requires Formed(k)
    ensures o.Next? ==> Formed(o.k) && o.k.y == k.y
  {
    if t in k.s.tcb && (k.s.tcb[t].status.Blocked? || k.s.tcb[t].status.Waiting? || k.s.tcb[t].status.Hanging?)
    then Next(k.(s := Unblock(k.s, t)))
    else Panic
  }

  // ----- sync.c -----

  /** One pass of sem_down's loop: have the semaphore and go on, or queue up and block. */
  ghost function DownOnce(k: Kernel, m: Mid, cont: Cont): Outcome
    requires Formed(k) && m in k.y.sem && (cont.ToWait? ==> cont.q in k.y.ioq)
  {
    var r := k.s.running;
    if k.y.sem[m].val == 0 then
      Sleep(k.(y := Enqueue(k.y, r, m, cont)))
    else
      var y' := Take(k.y, r, m);
      match cont
      case ToCaller => Next(k.(y := y'))
      case ToWait(q, role) => Sleep(k.(y := Await(y', r, q, role)))
  }

  ghost function Up(k: Kernel, m: Mid): (o: Outcome)
    requires Formed(k) && m in k.y.sem
    ensures o.Next? ==> Formed(o.k) && o.k.y.ioq == k.y.ioq
  {
    var w := k.y.sem[m].waiters;
    var k' := k.(y := Release(k.y, k.s.running, m));
    if k.y.sem[m].val != 0 then Panic
    else if w == [] then Next(k')
    else Wake(k', w[0])
  }

  // ----- ioqueue.c -----

  ghost function SignalConsumer(k: Kernel, q: Qid): Outcome
    requires Formed(k) && q in k.y.ioq
  {
    match k.y.ioq[q].consumer
    case None => Next(k)
    case Some(c) =>
      match Wake(k, c)
      case Next(k') => Next(k'.(y := ClearConsumer(k'.y, q)))
      case NoReady => NoReady
      case Panic => Panic
  }

  ghost function SignalProducer(k: Kernel, q: Qid): Outcome
    requires Formed(k) && q in k.y.ioq
  {
    match k.y.ioq[q].producer
    case None => Next(k)
    case Some(p) =>
      match Wake(k, p)
      case Next(k') => Next(k'.(y := ClearProducer(k'.y, q)))
      case NoReady => NoReady
      case Panic => Panic
  }

  /** ioq_getchar from the top of its loop. */
  ghost function GetTop(k: Kernel, q: Qid): Outcome
    requires Formed(k) && q in k.y.ioq
  {
    if Empty(k.y.ioq[q].ring) then DownOnce(k, k.y.ioq[q].mtx, ToWait(q, Consumer))
    else SignalProducer(k.(y := SetRing(k.y, q, Pop(k.y.ioq[q].ring))), q)
  }

  /** ioq_putchar from the top of its loop. */
  ghost function PutTop(k: Kernel, q: Qid, b: Byte): Outcome
    requires Formed(k) && q in k.y.ioq
  {
    if Full(k.y.ioq[q].ring) then DownOnce(k, k.y.ioq[q].mtx, ToWait(q, Producer(b)))
    else SignalConsumer(k.(y := SetRing(k.y, q, Push(k.y.ioq[q].ring, b))), q)
  }

  // ----- the steps -----

  /** A thread that blocked runs on with interrupts off until its system call is over, so nothing else is possible
      then; only the holder unlocks. */
  ghost predicate Enabled(k: Kernel, a: Action)
    requires Formed(k)
  {
    var r := k.s.running;
    match a
    case Lock(m) => k.y.place[r].Outside? && m in k.y.sem
    case Unlock(m) => k.y.place[r].Outside? && m in k.y.sem && m in k.y.held[r]
    case Get(q) => k.y.place[r].Outside? && q in k.y.ioq
    case Put(q, _) => k.y.place[r].Outside? && q in k.y.ioq
    case Resume =>
      (match k.y.place[r]
       case Outside => false
       case InDown(m, cont) => m in k.y.sem && (cont.ToWait? ==> cont.q in k.y.ioq)
       case InWait(q, _) => q in k.y.ioq)
    case Timer => k.y.place[r].Outside?
    case Tail => k.y.place[r].Outside?
    case Spawn(t, prio) => k.y.place[r].Outside? && t !in k.s.tcb && prio < PRIO_NUM
  }

  ghost function Step(k: Kernel, a: Action): Outcome
    requires Formed(k) && Enabled(k, a)
  {
    match a
    case Lock(m) => DownOnce(k, m, ToCaller)
    case Unlock(m) => Up(k, m)
    case Get(q) => GetTop(k, q)
    case Put(q, b) => PutTop(k, q, b)
    case Resume =>
      (match k.y.place[k.s.running]
       case InDown(m, cont) => DownOnce(k, m, cont)
       case InWait(q, role) =>
         (match Up(k, k.y.ioq[q].mtx)
          case Next(k') => if role.Consumer? then GetTop(k', q) else PutTop(k', q, role.byte)
          case NoReady => NoReady
          case Panic => Panic))
    case Timer => (match Tick(k.s) case None => NoReady case Some(s') => Next(k.(s := s')))
    case Tail => (match MainSchedule(k.s) case None => NoReady case Some(s') => Next(k.(s := s')))
    case Spawn(t, prio) => Next(Kernel(Create(k.s, t, prio), AddThread(k.y, t)))
  }

  // ----- the invariant -----

  ghost function BlockedSet(s: Sched): set<Tid> {
    set t | t in s.tcb && s.tcb[t].status.Blocked?
  }

  ghost predicate OthersBlocked(k: Kernel) {
    forall t | t in k.s.tcb && t != k.s.running :: t in BlockedSet(k.s)
  }

  ghost predicate Simple(s: Sched) {
    forall t | t in s.tcb :: Live(s, t) || s.tcb[t].status.Blocked?
  }

  ghost predicate KInv(k: Kernel) {
    && Inv(k.s) && Simple(k.s)
    && k.y.place.Keys == k.s.tcb.Keys
    && SyncInv(k.y, BlockedSet(k.s))
  }

  lemma InvFormed(k: Kernel)
    requires KInv(k)
    ensures Formed(k) && k.s.running !in BlockedSet(k.s)
  {
    hide QueuedBut, Exclusive, WaitersExact, NoLostWakeup, Slots, Fifo;
    assert forall q | q in k.y.ioq :: Fifo(k.y.ioq[q].ring) && Indexed(k.y.ioq[q].ring) by { RingsIndexed(k.y.ioq); }
  }

  lemma RingsIndexed(ioq: map<Qid, Ioq>)
    requires Rings(ioq)
    ensures forall q | q in ioq :: Fifo(ioq[q].ring) && Indexed(ioq[q].ring)
  {
  }

  lemma SleepBlocks(s: Sched)
    requires Inv(s) && Simple(s)
    ensures Block(s, Blocked).None? <==> forall t | t in s.tcb && t != s.running :: t in BlockedSet(s)
    ensures Block(s, Blocked).Some? ==>
              var s' := Block(s, Blocked).value;
              Inv(s') && Simple(s') && s'.tcb.Keys == s.tcb.Keys && BlockedSet(s') == BlockedSet(s) + {s.running}
  {
    hide QueuedBut, Block;
    BlockKeeps(s, Blocked);
  }

  lemma WakeUnblocks(s: Sched, t: Tid)
    requires Inv(s) && Simple(s) && t in BlockedSet(s)
    ensures var s' := Unblock(s, t);
            && Inv(s') && Simple(s') && s'.tcb.Keys == s.tcb.Keys && BlockedSet(s') == BlockedSet(s) - {t}
            && s'.running == s.running
  {
    hide QueuedBut, Unblock;
    UnblockKeeps(s, t);
  }

  lemma SwitchKeepsBlocked(s: Sched, s': Sched)
    requires Simple(s) && SameLive(s, s')
    ensures Simple(s') && BlockedSet(s') == BlockedSet(s)
  {
  }

  /** The steps that put the running thread to sleep and wake nobody first. */
  ghost predicate Blocks(k: Kernel, a: Action)
    requires Formed(k) && Enabled(k, a)
  {
    match a
    case Lock(m) => k.y.sem[m].val == 0
    case Get(q) => Empty(k.y.ioq[q].ring)
    case Put(q, _) => Full(k.y.ioq[q].ring)
    case Resume =>
      (match k.y.place[k.s.running]
       case InDown(m, cont) => k.y.sem[m].val == 0 || cont.ToWait?
       case InWait(q, role) =>
         && k.y.sem[k.y.ioq[q].mtx].waiters == []
         && if role.Consumer? then Empty(k.y.ioq[q].ring) else Full(k.y.ioq[q].ring))
    case _ => false
  }

  // ----- every step keeps it -----

  ghost predicate Good(o: Outcome) {
    !o.Panic? && (o.Next? ==> KInv(o.k))
  }

  lemma SleepKeeps(k: Kernel, y: Sync)
    requires KInv(k) && SyncInv(y, BlockedSet(k.s) + {k.s.running}) && y.place.Keys == k.s.tcb.Keys
             && Formed(k.(y := y))
    ensures Good(Sleep(k.(y := y)))
    ensures Sleep(k.(y := y)).NoReady? <==> OthersBlocked(k)
  {
    hide Inv, SyncInv, Block;
    SleepBlocks(k.s);
  }

  /** A blocked thread is woken while the rest of the state is `y`; afterwards it becomes `z`. */
  lemma WakeKeeps(k: Kernel, y: Sync, t: Tid, z: Sync)
    requires KInv(k) && t in BlockedSet(k.s) && Formed(k.(y := y))
    requires SyncInv(z, BlockedSet(k.s) - {t}) && z.place.Keys == k.s.tcb.Keys
    ensures Wake(k.(y := y), t) == Next(Kernel(Unblock(k.s, t), y)) && KInv(Kernel(Unblock(k.s, t), z))
    ensures Unblock(k.s, t).running == k.s.running && t != k.s.running && t in k.s.tcb
    ensures BlockedSet(Unblock(k.s, t)) == BlockedSet(k.s) - {t} && Unblock(k.s, t).tcb.Keys == k.s.tcb.Keys
  {
    hide Inv, SyncInv, Unblock;
    InvFormed(k);
    WakeUnblocks(k.s, t);
  }

  lemma DownKeeps(k: Kernel, m: Mid, cont: Cont)
    requires KInv(k) && AtDown(k.y, BlockedSet(k.s), k.s.running, m) && MayLock(k.y, m, cont)
    ensures Formed(k) && Good(DownOnce(k, m, cont))
    ensures DownOnce(k, m, cont).NoReady? <==> (k.y.sem[m].val == 0 || cont.ToWait?) && OthersBlocked(k)
  {
    hide Inv, SyncInv, Sleep, BlockedSet;
    InvFormed(k);
    var b, r := BlockedSet(k.s), k.s.running;
    if k.y.sem[m].val == 0 {
      EnqueueKeeps(k.y, b, r, m, cont);
      SleepKeeps(k, Enqueue(k.y, r, m, cont));
    } else {
      TakeKeeps(k.y, b, r, m);
      if cont.ToWait? {
        var y' := Take(k.y, r, m);
        AwaitKeeps(y', b, r, cont.q, cont.role);
        SleepKeeps(k, Await(y', r, cont.q, cont.role));
      }
    }
  }

  lemma UpKeeps(k: Kernel, m: Mid)
    requires KInv(k) && m in k.y.sem && k.s.running in k.y.held && m in k.y.held[k.s.running]
    requires var p := k.y.place[k.s.running]; p.Outside? || (p.InWait? && p.q in k.y.ioq && k.y.ioq[p.q].mtx == m)
    ensures Formed(k) && Up(k, m).Next? && KInv(Up(k, m).k)
    ensures Up(k, m).k.s.running == k.s.running && Up(k, m).k.y.place[k.s.running].Outside?
    ensures Up(k, m).k.y.ioq == k.y.ioq
    ensures OthersBlocked(Up(k, m).k) <==> OthersBlocked(k) && k.y.sem[m].waiters == []
  {
    hide Inv, SyncInv, Wake, Unblock;
    InvFormed(k);
    var b, r := BlockedSet(k.s), k.s.running;
    var w := k.y.sem[m].waiters;
    var b' := if w == [] then b else b - {w[0]};
    ReleaseKeeps(k.y, b, r, m, b');
    if w != [] {
      WakeKeeps(k, Release(k.y, r, m), w[0], Release(k.y, r, m));
    }
  }

  lemma GetKeeps(k: Kernel, q: Qid)
    requires KInv(k) && q in k.y.ioq && k.s.running in k.y.place && k.y.place[k.s.running].Outside?
    ensures Formed(k) && Good(GetTop(k, q))
    ensures GetTop(k, q).NoReady? <==> Empty(k.y.ioq[q].ring) && OthersBlocked(k)
  {
    hide Inv, Sleep, Wake, Unblock, BlockedSet, DownOnce, MutexInv, PlaceInv;
    InvFormed(k);
    var b, ring := BlockedSet(k.s), k.y.ioq[q].ring;
    if Empty(ring) {
      DownKeeps(k, k.y.ioq[q].mtx, ToWait(q, Consumer));
    } else {
      PopKeeps(ring);
      SetRingKeeps(k.y, b, q, Pop(ring));
      var y' := SetRing(k.y, q, Pop(ring));
      if y'.ioq[q].producer.Some? {
        var p := y'.ioq[q].producer.value;
        ClearProducerKeeps(y', b, q);
        WakeKeeps(k, y', p, ClearProducer(y', q));
      }
    }
  }

  lemma PutKeeps(k: Kernel, q: Qid, byte: Byte)
    requires KInv(k) && q in k.y.ioq && k.s.running in k.y.place && k.y.place[k.s.running].Outside?
    ensures Formed(k) && Good(PutTop(k, q, byte))
    ensures PutTop(k, q, byte).NoReady? <==> Full(k.y.ioq[q].ring) && OthersBlocked(k)
  {
    hide Inv, Sleep, Wake, Unblock, BlockedSet, DownOnce, MutexInv, PlaceInv;
    InvFormed(k);
    var b, ring := BlockedSet(k.s), k.y.ioq[q].ring;
    if Full(ring) {
      DownKeeps(k, k.y.ioq[q].mtx, ToWait(q, Producer(byte)));
    } else {
      PushKeeps(ring, byte);
      SetRingKeeps(k.y, b, q, Push(ring, byte));
      var y' := SetRing(k.y, q, Push(ring, byte));
      if y'.ioq[q].consumer.Some? {
        var c := y'.ioq[q].consumer.value;
        ClearConsumerKeeps(y', b, q);
        WakeKeeps(k, y', c, ClearConsumer(y', q));
      }
    }
  }

  lemma ResumeKeeps(k: Kernel)
    requires KInv(k) && Formed(k) && Enabled(k, Resume)
    ensures Good(Step(k, Resume))
    ensures Step(k, Resume).NoReady? <==> Blocks(k, Resume) && OthersBlocked(k)
  {
    hide Inv, DownOnce, Up, GetTop, PutTop, BlockedSet, MutexInv, Rings, Slots;
    InvFormed(k);
    match k.y.place[k.s.running]
    case InDown(m, cont) => DownKeeps(k, m, cont);
    case InWait(q, role) =>
      WaitersOwn(k.y, BlockedSet(k.s));
      UpKeeps(k, k.y.ioq[q].mtx);
      var k' := Up(k, k.y.ioq[q].mtx).k;
      InvFormed(k');
      if role.Consumer? { GetKeeps(k', q); } else { PutKeeps(k', q, role.byte); }
  }

  lemma SwitchKeeps(k: Kernel, s': Sched)
    requires KInv(k) && Inv(s') && SameLive(k.s, s')
    ensures KInv(k.(s := s'))
  {
    hide Inv, SyncInv;
    SwitchKeepsBlocked(k.s, s');
  }

  lemma SpawnKeeps(k: Kernel, t: Tid, prio: nat)
    requires KInv(k) && Formed(k) && t !in k.s.tcb && prio < PRIO_NUM
    ensures KInv(Kernel(Create(k.s, t, prio), AddThread(k.y, t)))
  {
    hide QueuedBut, Create, SyncInv;
    CreateKeeps(k.s, t, prio);
    AddThreadKeeps(k.y, BlockedSet(k.s), t);
    assert BlockedSet(Create(k.s, t, prio)) == BlockedSet(k.s);
  }

  /** No step fails an assertion, every step that goes through keeps the invariant, and the ready queues run empty
      exactly when a step blocks while every other thread is already blocked. */
  lemma StepKeeps(k: Kernel, a: Action)
    requires KInv(k) && Formed(k) && Enabled(k, a)
    ensures Good(Step(k, a))
    ensures Step(k, a).NoReady? <==> Blocks(k, a) && OthersBlocked(k)
  {
    hide Inv, DownOnce, Up, GetTop, PutTop, Rings, MutexInv, PlaceInv, Tick, MainSchedule, Create;
    InvFormed(k);
    match a
    case Lock(m) => DownKeeps(k, m, ToCaller);
    case Unlock(m) => UpKeeps(k, m);
    case Get(q) => GetKeeps(k, q);
    case Put(q, b) => PutKeeps(k, q, b);
    case Resume => ResumeKeeps(k);
    case Timer => TickKeeps(k.s); SwitchKeeps(k, Tick(k.s).value);
    case Tail => MainScheduleKeeps(k.s); SwitchKeeps(k, MainSchedule(k.s).value);
    case Spawn(t, prio) => SpawnKeeps(k, t, prio);
  }

  // ----- whole runs -----

  /** `k` is reached from `k0` by the actions `run`, each possible where it is taken. */
  ghost predicate Reaches(k0: Kernel, run: seq<Action>, k: Kernel)
    decreases |run|
  {
    if run == [] then k == k0
    else Formed(k0) && Enabled(k0, run[0]) && Step(k0, run[0]).Next? && Reaches(Step(k0, run[0]).k, run[1..], k)
  }

  lemma {:induction false} RunKeeps(k0: Kernel, run: seq<Action>, k: Kernel)
    requires KInv(k0) && Reaches(k0, run, k)
    ensures KInv(k)
    decreases |run|
  {
    hide KInv, Step, Enabled, Formed;
    if run != [] {
      StepKeeps(k0, run[0]);
      RunKeeps(Step(k0, run[0]).k, run[1..], k);
    }
  }

  ghost function Holders(k: Kernel, m: Mid): set<Tid> {
    set t | t in k.y.held && m in k.y.held[t]
  }

  /** Mutual exclusion: `val` plus the threads between lock and unlock is always one. */
  lemma MutualExclusion(k0: Kernel, run: seq<Action>, k: Kernel, m: Mid)
    requires KInv(k0) && Reaches(k0, run, k) && m in k.y.sem
    ensures k.y.sem[m].val + |Holders(k, m)| == 1
  {
    hide Inv, PlaceInv, WaitersExact, NoLostWakeup, Rings, Formed, Step, Enabled;
    RunKeeps(k0, run, k);
    if k.y.sem[m].val == 0 {
      var t :| t in k.y.held && m in k.y.held[t];
      assert Holders(k, m) == {t};
    } else {
      assert Holders(k, m) == {};
    }
  }

  /** In every run the assertions of sem_up and thread_unblock pass. */
  lemma NeverPanics(k0: Kernel, run: seq<Action>, k: Kernel, a: Action)
    requires KInv(k0) && Reaches(k0, run, k) && Formed(k) && Enabled(k, a)
    ensures !Step(k, a).Panic?
  {
    hide KInv, Step, Enabled, Formed;
    RunKeeps(k0, run, k);
    StepKeeps(k, a);
  }

  /** In every run each queue is a FIFO: what came out is a prefix of what went in, at most 63 bytes are pending, and
      they are in the buffer in order. */
  lemma QueuesAreFifo(k0: Kernel, run: seq<Action>, k: Kernel, q: Qid)
    requires KInv(k0) && Reaches(k0, run, k) && q in k.y.ioq
    ensures Fifo(k.y.ioq[q].ring) && k.y.ioq[q].ring.got <= k.y.ioq[q].ring.put
    ensures |k.y.ioq[q].ring.put| - |k.y.ioq[q].ring.got| <= 63
  {
    hide Inv, MutexInv, PlaceInv, Step, Enabled;
    RunKeeps(k0, run, k);
    RingsIndexed(k.y.ioq);
    Capacity(k.y.ioq[q].ring);
  }

  /** In every run a slot names the one thread blocked in that queue's ioq_wait, which owns the queue's mutex; so at
      most one of the two slots is taken. */
  lemma SlotOwners(k0: Kernel, run: seq<Action>, k: Kernel, q: Qid)
    requires KInv(k0) && Reaches(k0, run, k) && q in k.y.ioq
    ensures k.y.ioq[q].consumer.None? || k.y.ioq[q].producer.None?
    ensures forall t :: (k.y.ioq[q].consumer == Some(t) || k.y.ioq[q].producer == Some(t)) <==>
              t in BlockedSet(k.s) && t in k.y.place && k.y.place[t].InWait? && k.y.place[t].q == q
    ensures forall t | t in k.y.place && k.y.place[t].InWait? && k.y.place[t].q == q ::
            t in k.y.held && Holders(k, k.y.ioq[q].mtx) == {t}
  {
    hide Inv, WaitersExact, NoLostWakeup, Rings, Formed, Step, Enabled, BlockedSet, Simple;
    RunKeeps(k0, run, k);
  }

  /** In every run a thread that is in sem_down and not blocked is in no waiter list: the list_elem_find check never
      finds it. And a mutex with waiters is taken, or a woken thread is still in its loop. */
  lemma WaiterLists(k0: Kernel, run: seq<Action>, k: Kernel, m: Mid)
    requires KInv(k0) && Reaches(k0, run, k) && m in k.y.sem
    ensures k.s.running !in k.y.sem[m].waiters
    ensures forall t :: t in k.y.sem[m].waiters <==> t in BlockedSet(k.s) && t in k.y.place && InLoop(k.y.place[t], m)
    ensures k.y.sem[m].waiters != [] && k.y.sem[m].val != 0
            ==> exists t | t in k.y.place :: Live(k.s, t) && InLoop(k.y.place[t], m)
  {
    hide QueuedBut, Exclusive, PlaceInv, Rings, Formed, Step, Enabled;
    RunKeeps(k0, run, k);
    if k.y.sem[m].waiters != [] && k.y.sem[m].val != 0 {
      var t :| t in k.y.place && t !in BlockedSet(k.s) && InLoop(k.y.place[t], m);
      assert Live(k.s, t);
    }
  }

  // ----- never an empty ready queue -----

  /** Threads block only on mutexes, and only while they hold none. */
  ghost predicate Plain(k: Kernel) {
    forall t | t in k.y.place && !k.y.place[t].Outside? ::
      k.y.place[t].InDown? && k.y.place[t].cont.ToCaller? && t in k.y.held && k.y.held[t] == {}
  }

  /** A thread may take a mutex that is free, and get or put a byte when there is one or room for one; to wait, it may
      only queue for a mutex while it holds none. */
  ghost predicate Disciplined(k: Kernel, a: Action)
    requires Formed(k) && Enabled(k, a)
  {
    match a
    case Lock(m) => k.y.held[k.s.running] == {} || k.y.sem[m].val > 0
    case Get(q) => !Empty(k.y.ioq[q].ring)
    case Put(q, _) => !Full(k.y.ioq[q].ring)
    case _ => true
  }

  /** Then nobody is ever in an ioq_wait, so both slots of every queue stay empty. */
  lemma PlainSlots(k: Kernel, q: Qid)
    requires KInv(k) && Plain(k) && q in k.y.ioq
    ensures k.y.ioq[q].consumer.None? && k.y.ioq[q].producer.None?
  {
    hide Inv, MutexInv, Rings;
  }

  lemma PlainTransfer(k: Kernel, q: Qid, a: Action)
    requires KInv(k) && Formed(k) && Plain(k) && Enabled(k, a) && Disciplined(k, a) && Step(k, a).Next?
    requires a == Get(q) || (a.Put? && a.q == q)
    ensures Plain(Step(k, a).k)
  {
    hide KInv, Unblock, Block, Push, Pop, Empty, Full;
    PlainSlots(k, q);
  }

  lemma PlainLock(k: Kernel, m: Mid)
    requires Formed(k) && Plain(k) && Enabled(k, Lock(m)) && Disciplined(k, Lock(m)) && Step(k, Lock(m)).Next?
    ensures Plain(Step(k, Lock(m)).k)
  {
    hide Unblock, Block;
  }

  lemma PlainKeeps(k: Kernel, a: Action)
    requires KInv(k) && Formed(k) && Plain(k) && Enabled(k, a) && Disciplined(k, a) && Step(k, a).Next?
    ensures Plain(Step(k, a).k)
  {
    match a
    case Get(q) => PlainTransfer(k, q, a);
    case Put(q, _) => PlainTransfer(k, q, a);
    case Lock(m) => PlainLock(k, m);
    case _ => PlainOther(k, a);
  }

  lemma PlainOther(k: Kernel, a: Action)
    requires Formed(k) && Plain(k) && Enabled(k, a) && Step(k, a).Next? && !a.Get? && !a.Put? && !a.Lock?
    ensures Plain(Step(k, a).k)
  {
    hide Tick, MainSchedule, Create, Unblock, Block;
  }

  lemma DisciplineKeeps(k: Kernel, a: Action)
    requires KInv(k) && Formed(k) && Plain(k) && Enabled(k, a) && Disciplined(k, a)
    ensures Step(k, a).Next? && KInv(Step(k, a).k) && Plain(Step(k, a).k)
  {
    hide KInv, Plain, Step, Disciplined, Blocks, OthersBlocked, Enabled, Formed;
    StepKeeps(k, a);
    if Blocks(k, a) {
      HolderIsReady(k, a);
    }
    PlainKeeps(k, a);
  }

  lemma HolderIsReady(k: Kernel, a: Action)
    requires KInv(k) && Formed(k) && Plain(k) && Enabled(k, a) && Disciplined(k, a) && Blocks(k, a)
    ensures !OthersBlocked(k)
  {
    hide Inv, WaitersExact, NoLostWakeup, Rings, Slots;
    var m := if a.Lock? then a.m else k.y.place[k.s.running].m;
    var h :| h in k.y.held && m in k.y.held[h];
    assert h !in BlockedSet(k.s);
  }

  ghost predicate DisciplinedRun(k0: Kernel, run: seq<Action>, k: Kernel)
    decreases |run|
  {
    if run == [] then k == k0
    else Formed(k0) && Enabled(k0, run[0]) && Disciplined(k0, run[0]) && Step(k0, run[0]).Next?
         && DisciplinedRun(Step(k0, run[0]).k, run[1..], k)
  }

  /** As the comment in highest_rq_get asserts: under that discipline some thread is always ready. Whatever the run so
      far, no further step finds every queue empty. */
  lemma {:induction false} AlwaysSomeoneReady(k0: Kernel, run: seq<Action>, k: Kernel, a: Action)
    requires KInv(k0) && Plain(k0) && DisciplinedRun(k0, run, k)
    requires Formed(k) && Enabled(k, a) && Disciplined(k, a)
    ensures Step(k, a).Next?
    decreases |run|
  {
    hide KInv, Plain, Step, Disciplined, Enabled, Formed;
    if run == [] {
      DisciplineKeeps(k, a);
    } else {
      DisciplineKeeps(k0, run[0]);
      AlwaysSomeoneReady(Step(k0, run[0]).k, run[1..], k, a);
    }
  }

  // ----- a thread that never waits -----

  /** The step does not put its thread to sleep. */
  ghost predicate NoWait(k: Kernel, a: Action)
    requires Formed(k) && Enabled(k, a)
  {
    match a
    case Lock(m) => k.y.sem[m].val > 0
    case Get(q) => !Empty(k.y.ioq[q].ring)
    case Put(q, _) => !Full(k.y.ioq[q].ring)
    case Resume => false
    case _ => true
  }

  ghost predicate Awake(k: Kernel, i: Tid) {
    i in k.s.tcb && i !in BlockedSet(k.s) && i in k.y.place && k.y.place[i].Outside?
  }

  /** Every step of thread i itself is one that does not wait; the others do as they like. */
  ghost predicate IdleRun(k0: Kernel, run: seq<Action>, k: Kernel, i: Tid)
    decreases |run|
  {
    if run == [] then k == k0
    else Formed(k0) && Enabled(k0, run[0]) && (k0.s.running == i ==> NoWait(k0, run[0])) && Step(k0, run[0]).Next?
         && IdleRun(Step(k0, run[0]).k, run[1..], k, i)
  }

  /** Who is asleep and where: only the running thread may fall asleep, and only its place changes. */
  ghost predicate Effect(k: Kernel, k': Kernel, sleeps: bool) {
    && k.s.tcb.Keys <= k'.s.tcb.Keys && k.y.place.Keys <= k'.y.place.Keys
    && (forall t | t in k.y.place && t != k.s.running :: k'.y.place[t] == k.y.place[t])
    && BlockedSet(k'.s) <= BlockedSet(k.s) + (if sleeps then {k.s.running} else {})
    && (sleeps || k.s.running !in k.y.place || k'.y.place[k.s.running].Outside?)
  }

  lemma SleepEffect(k: Kernel, y: Sync)
    requires Inv(k.s) && Simple(k.s) && Formed(k.(y := y)) && Sleep(k.(y := y)).Next? && k.y.place.Keys <= y.place.Keys
    requires forall t | t in k.y.place && t != k.s.running :: y.place[t] == k.y.place[t]
    ensures Effect(k, Sleep(k.(y := y)).k, true)
  {
    hide Block, Inv, BlockedSet;
    SleepBlocks(k.s);
  }

  lemma DownEffect(k: Kernel, m: Mid, cont: Cont)
    requires Inv(k.s) && Simple(k.s) && Formed(k) && m in k.y.sem && (cont.ToWait? ==> cont.q in k.y.ioq)
    requires DownOnce(k, m, cont).Next?
    ensures Effect(k, DownOnce(k, m, cont).k, k.y.sem[m].val == 0 || cont.ToWait?)
  {
    hide Inv, Simple, Sleep, BlockedSet;
    if k.y.sem[m].val == 0 {
      SleepEffect(k, Enqueue(k.y, k.s.running, m, cont));
    } else if cont.ToWait? {
      SleepEffect(k, Await(Take(k.y, k.s.running, m), k.s.running, cont.q, cont.role));
    }
  }

  lemma WakeEffect(k: Kernel, y: Sync, t: Tid)
    requires KInv(k) && Formed(k.(y := y)) && Wake(k.(y := y), t).Next?
    ensures var k' := Wake(k.(y := y), t).k;
            && k'.y == y && k'.s.tcb.Keys == k.s.tcb.Keys && k'.s.running == k.s.running
            && BlockedSet(k'.s) == BlockedSet(k.s) - {t} && Inv(k'.s) && Simple(k'.s)
  {
    hide Inv, Unblock, SyncInv;
    WakeUnblocks(k.s, t);
  }

  lemma UpEffect(k: Kernel, m: Mid)
    requires KInv(k) && Formed(k) && m in k.y.sem && Up(k, m).Next?
    ensures var k' := Up(k, m).k;
            && k'.s.running == k.s.running && Inv(k'.s) && Simple(k'.s)
            && (k.s.running in k.y.place ==> Effect(k, k', false))
            && k'.s.tcb.Keys == k.s.tcb.Keys && BlockedSet(k'.s) <= BlockedSet(k.s)
            && k'.y.place == k.y.place[k.s.running := Outside]
  {
    hide Inv, Wake, SyncInv, BlockedSet, Simple;
    var w := k.y.sem[m].waiters;
    KInvParts(k);
    if w != [] {
      WakeEffect(k, Release(k.y, k.s.running, m), w[0]);
    }
  }

  lemma KInvParts(k: Kernel)
    requires KInv(k)
    ensures Inv(k.s) && Simple(k.s)
  {
  }

  lemma GetEffect(k: Kernel, q: Qid)
    requires KInv(k) && Formed(k) && q in k.y.ioq && GetTop(k, q).Next? && k.s.running in k.y.place
             && k.y.place[k.s.running].Outside?
    ensures Effect(k, GetTop(k, q).k, Empty(k.y.ioq[q].ring))
  {
    hide Inv, Wake, SyncInv, BlockedSet, Simple, DownOnce, Pop;
    KInvParts(k);
    if Empty(k.y.ioq[q].ring) {
      DownEffect(k, k.y.ioq[q].mtx, ToWait(q, Consumer));
    } else if k.y.ioq[q].producer.Some? {
      WakeEffect(k, SetRing(k.y, q, Pop(k.y.ioq[q].ring)), k.y.ioq[q].producer.value);
    }
  }

  lemma PutEffect(k: Kernel, q: Qid, b: Byte)
    requires KInv(k) && Formed(k) && q in k.y.ioq && PutTop(k, q, b).Next? && k.s.running in k.y.place
             && k.y.place[k.s.running].Outside?
    ensures Effect(k, PutTop(k, q, b).k, Full(k.y.ioq[q].ring))
  {
    hide Inv, Wake, SyncInv, BlockedSet, Simple, DownOnce, Push;
    KInvParts(k);
    if Full(k.y.ioq[q].ring) {
      DownEffect(k, k.y.ioq[q].mtx, ToWait(q, Producer(b)));
    } else if k.y.ioq[q].consumer.Some? {
      WakeEffect(k, SetRing(k.y, q, Push(k.y.ioq[q].ring, b)), k.y.ioq[q].consumer.value);
    }
  }

  lemma ResumeEffect(k: Kernel)
    requires KInv(k) && Formed(k) && Enabled(k, Resume) && Step(k, Resume).Next?
    ensures Effect(k, Step(k, Resume).k, true)
  {
    hide Inv, SyncInv, BlockedSet, Simple, DownOnce, Up, GetTop, PutTop;
    KInvParts(k);
    match k.y.place[k.s.running]
    case InDown(m, cont) => DownEffect(k, m, cont);
    case InWait(q, role) =>
      ResumeKeeps(k);
      WaiterUps(k);
      UpEffect(k, k.y.ioq[q].mtx);
      var k' := Up(k, k.y.ioq[q].mtx).k;
      if role.Consumer? { GetEffect(k', q); } else { PutEffect(k', q, role.byte); }
  }

  /** The first half of a resumed ioq_wait: the mutex is unlocked, and all is well in between. */
  lemma WaiterUps(k: Kernel)
    requires KInv(k) && Formed(k) && Enabled(k, Resume) && k.y.place[k.s.running].InWait?
    ensures var o := Up(k, k.y.ioq[k.y.place[k.s.running].q].mtx);
            o.Next? && KInv(o.k) && Formed(o.k) && o.k.y.ioq == k.y.ioq
  {
    hide Inv, Up, BlockedSet, MutexInv, Rings, Slots;
    var q := k.y.place[k.s.running].q;
    InvFormed(k);
    WaitersOwn(k.y, BlockedSet(k.s));
    UpKeeps(k, k.y.ioq[q].mtx);
    InvFormed(Up(k, k.y.ioq[q].mtx).k);
  }

  lemma SwitchEffect(k: Kernel, s': Sched)
    requires Inv(k.s) && Simple(k.s) && SameLive(k.s, s')
    ensures BlockedSet(s') == BlockedSet(k.s)
  {
    SwitchKeepsBlocked(k.s, s');
  }

  lemma StepEffect(k: Kernel, a: Action)
    requires KInv(k) && Formed(k) && Enabled(k, a) && Step(k, a).Next?
    ensures Effect(k, Step(k, a).k, !NoWait(k, a))
  {
    hide Inv, SyncInv, BlockedSet, Simple, DownOnce, Up, GetTop, PutTop, Tick, MainSchedule, Create;
    KInvParts(k);
    match a
    case Lock(m) => DownEffect(k, m, ToCaller);
    case Unlock(m) => UpEffect(k, m);
    case Get(q) => GetEffect(k, q);
    case Put(q, b) => PutEffect(k, q, b);
    case Resume => ResumeEffect(k);
    case Timer => TickKeeps(k.s); SwitchEffect(k, Tick(k.s).value);
    case Tail => MainScheduleKeeps(k.s); SwitchEffect(k, MainSchedule(k.s).value);
    case Spawn(t, prio) => SpawnEffect(k.s, t, prio);
  }

  lemma SpawnEffect(s: Sched, t: Tid, prio: nat)
    requires Inv(s) && t !in s.tcb && prio < PRIO_NUM
    ensures BlockedSet(Create(s, t, prio)) == BlockedSet(s) && s.tcb.Keys <= Create(s, t, prio).tcb.Keys
  {
    hide QueuedBut, Create;
    CreateKeeps(s, t, prio);
  }

  lemma AwakeStays(k: Kernel, a: Action, i: Tid)
    requires KInv(k) && Formed(k) && Awake(k, i) && Enabled(k, a) && (k.s.running == i ==> NoWait(k, a))
             && Step(k, a).Next?
    ensures Awake(Step(k, a).k, i)
  {
    hide KInv, Step, NoWait, BlockedSet;
    StepEffect(k, a);
  }

  lemma AwakeKeeps(k: Kernel, a: Action, i: Tid)
    requires KInv(k) && Formed(k) && Awake(k, i) && Enabled(k, a) && (k.s.running == i ==> NoWait(k, a))
    ensures Step(k, a).Next? && KInv(Step(k, a).k) && Awake(Step(k, a).k, i)
  {
    hide KInv, Step, BlockedSet;
    StepKeeps(k, a);
    AwakeStays(k, a, i);
  }

  /** One thread that never waits, such as a process that only computes, is enough: whatever the other threads do with
      mutexes and queues, no step finds every ready queue empty. */
  lemma {:induction false} IdleKeepsItReady(k0: Kernel, run: seq<Action>, k: Kernel, a: Action, i: Tid)
    requires KInv(k0) && Awake(k0, i) && IdleRun(k0, run, k, i)
    requires Formed(k) && Enabled(k, a) && (k.s.running == i ==> NoWait(k, a))
    ensures Step(k, a).Next?
    decreases |run|
  {
    hide KInv, Awake, Step, NoWait, Enabled, Formed;
    if run == [] {
      AwakeKeeps(k, a, i);
    } else {
      AwakeKeeps(k0, run[0], i);
      IdleKeepsItReady(Step(k0, run[0]).k, run[1..], k, a, i);
    }
  }

  // ----- boot -----

  /** Every mutex free, every queue empty, no two queues with one mutex. */
  ghost predicate Unused(y: Sync) {
    && (forall m | m in y.sem :: y.sem[m] == Sem(1, []))
    && (forall q | q in y.ioq ::
          && y.ioq[q].mtx in y.sem && y.ioq[q].producer.None? && y.ioq[q].consumer.None?
          && Indexed(y.ioq[q].ring) && y.ioq[q].ring.head == y.ioq[q].ring.tail == 0
          && y.ioq[q].ring.put == y.ioq[q].ring.got == [])
    && (forall p, q | p in y.ioq && q in y.ioq && y.ioq[p].mtx == y.ioq[q].mtx :: p == q)
  }

  /** The idle thread alone, on mutexes and queues that nobody has used. */
  ghost predicate BootState(k: Kernel, idle: Tid) {
    && Inv(k.s) && k.s.tcb.Keys == {idle}
    && k.y.place == map[idle := Outside] && k.y.held == map[idle := {}]
    && Unused(k.y)
  }

  lemma BootKeeps(k: Kernel, idle: Tid)
    requires BootState(k, idle)
    ensures KInv(k) && Plain(k)
  {
    hide QueuedBut;
  }

  /** Such a state: one mutex, free, and one empty queue that uses it. */
  ghost function Start(idle: Tid): Kernel {
    var ring := Ring(seq(BUF_SIZE, i => 0), 0, 0, [], []);
    Kernel(P.Boot(idle), Sync(map[0 := Sem(1, [])], map[0 := Ioq(0, None, None, ring)], map[idle := Outside],
      map[idle := {}]))
  }

  lemma StartBoots(idle: Tid)
    ensures BootState(Start(idle), idle)
  {
    hide QueuedBut;
    P.BootInv(idle);
  }

  /** Without the discipline the comment is false: reading an empty queue with no other thread empties the ready
      queues. */
  lemma LoneReaderStops(k: Kernel, idle: Tid, q: Qid)
    requires BootState(k, idle) && q in k.y.ioq
    ensures Formed(k) && Enabled(k, Get(q)) && Step(k, Get(q)).NoReady?
  {
    hide Step, KInv, Inv;
    BootKeeps(k, idle);
    InvFormed(k);
    OnlyIdle(k, idle);
    StepKeeps(k, Get(q));
  }

  lemma OnlyIdle(k: Kernel, idle: Tid)
    requires BootState(k, idle) && Formed(k)
    ensures k.s.running == idle && OthersBlocked(k)
  {
    hide Inv;
  }
}

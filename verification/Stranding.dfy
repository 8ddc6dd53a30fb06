/** ioq_wait sleeps without a look at the buffer. Which steps leave a reader asleep beside unread bytes, or a writer
    beside free room, and which use of the queue never does. */
module Stranding {
  import opened Options
  import opened Scheduling
  import opened RingBuffers
  import opened Synchronisation
  import opened KernelMachine
  import opened Turns

  /** A reader sleeps in the slot although there is something to read. */
  ghost predicate ReaderStranded(k: Kernel, q: Qid) {
    q in k.y.ioq && k.y.ioq[q].consumer.Some? && !Empty(k.y.ioq[q].ring)
  }

  /** A writer sleeps in the slot although there is room. */
  ghost predicate WriterStranded(k: Kernel, q: Qid) {
    q in k.y.ioq && k.y.ioq[q].producer.Some? && !Full(k.y.ioq[q].ring)
  }

  /** The running thread queued for the mutex of q earlier, and gets it now. */
  ghost predicate GetsMutexLate(k: Kernel, a: Action, q: Qid) {
    && a.Resume? && k.s.running in k.y.place && k.y.place[k.s.running].InDown?
    && var p := k.y.place[k.s.running];
    && p.cont.ToWait? && p.cont.q == q && p.m in k.y.sem && k.y.sem[p.m].val > 0
  }

  /** A late reader that does not see the bytes that came meanwhile. */
  ghost predicate BlindReader(k: Kernel, a: Action, q: Qid) {
    && GetsMutexLate(k, a, q) && k.y.place[k.s.running].cont.role.Consumer?
    && q in k.y.ioq && !Empty(k.y.ioq[q].ring)
  }

  /** A late writer that does not see the room that was made meanwhile. */
  ghost predicate BlindWriter(k: Kernel, a: Action, q: Qid) {
    && GetsMutexLate(k, a, q) && k.y.place[k.s.running].cont.role.Producer?
    && q in k.y.ioq && !Full(k.y.ioq[q].ring)
  }

  predicate Queues(p: Place, q: Qid) {
    p.InDown? && p.cont.ToWait? && p.cont.q == q
  }

  /** Who queues in order to wait at q queues for the mutex of q. */
  lemma LateIsInOrder(k: Kernel, q: Qid)
    requires KInv(k) && q in k.y.ioq && k.s.running in k.y.place && Queues(k.y.place[k.s.running], q)
    ensures k.y.place[k.s.running].m == k.y.ioq[q].mtx
  {
    hide Inv, MutexInv, Slots, Rings;
  }

  /** Whoever queued for the mutex goes to sleep once it has it, whatever happened to the buffer meanwhile. */
  lemma SleepsUnchecked(k: Kernel, q: Qid)
    requires KInv(k) && Formed(k) && q in k.y.ioq && GetsMutexLate(k, Resume, q) && !OthersBlocked(k)
    ensures Enabled(k, Resume) && Step(k, Resume).Next?
    ensures var k', r := Step(k, Resume).k, k.s.running;
            && r in BlockedSet(k'.s) && k'.y.ioq == k.y.ioq[q := InSlot(k.y.ioq[q], k.y.place[r].cont.role, r)]
  {
    hide Inv, SyncInv, DownOnce, OthersBlocked, BlockedSet;
    LateIsInOrder(k, q);
    AtItsMutex(k, q);
    TakesSlot(k, q, k.y.place[k.s.running].cont.role);
  }

  lemma AtItsMutex(k: Kernel, q: Qid)
    requires KInv(k) && q in k.y.ioq && k.s.running in k.y.place && InLoop(k.y.place[k.s.running], k.y.ioq[q].mtx)
    ensures AtMutex(k, q)
  {
    hide Inv, Rings, Slots, Exclusive, WaitersExact, NoLostWakeup;
  }

  // ----- the queues after a step -----

  lemma IoqAfterDown(k: Kernel, m: Mid, cont: Cont)
    requires Formed(k) && m in k.y.sem && (cont.ToWait? ==> cont.q in k.y.ioq) && DownOnce(k, m, cont).Next?
    ensures DownOnce(k, m, cont).k.y.ioq
            == if k.y.sem[m].val > 0 && cont.ToWait?
               then k.y.ioq[cont.q := InSlot(k.y.ioq[cont.q], cont.role, k.s.running)]
               else k.y.ioq
  {
    hide Block;
  }

  lemma IoqAfterGet(k: Kernel, q: Qid)
    requires Formed(k) && q in k.y.ioq && GetTop(k, q).Next?
    ensures var i := k.y.ioq[q];
            GetTop(k, q).k.y.ioq
            == if !Empty(i.ring) then k.y.ioq[q := i.(ring := Pop(i.ring), producer := None)]
               else if k.y.sem[i.mtx].val > 0 then k.y.ioq[q := InSlot(i, Consumer, k.s.running)]
               else k.y.ioq
  {
    hide DownOnce, Unblock;
    if Empty(k.y.ioq[q].ring) {
      IoqAfterDown(k, k.y.ioq[q].mtx, ToWait(q, Consumer));
    }
  }

  lemma IoqAfterPut(k: Kernel, q: Qid, b: Byte)
    requires Formed(k) && q in k.y.ioq && PutTop(k, q, b).Next?
    ensures var i := k.y.ioq[q];
            PutTop(k, q, b).k.y.ioq
            == if !Full(i.ring) then k.y.ioq[q := i.(ring := Push(i.ring, b), consumer := None)]
               else if k.y.sem[i.mtx].val > 0 then k.y.ioq[q := InSlot(i, Producer(b), k.s.running)]
               else k.y.ioq
  {
    hide DownOnce, Unblock;
    if Full(k.y.ioq[q].ring) {
      IoqAfterDown(k, k.y.ioq[q].mtx, ToWait(q, Producer(b)));
    }
  }

  // ----- exactly which steps strand -----

  /** Of a state that strands nobody at q, get and put make none that does: whoever they put in the slot has just seen
      the buffer. */
  lemma GetStrandsNobody(k: Kernel, p: Qid, q: Qid)
    requires Formed(k) && p in k.y.ioq && GetTop(k, p).Next? && q in k.y.ioq
    ensures q in GetTop(k, p).k.y.ioq
    ensures !ReaderStranded(k, q) ==> !ReaderStranded(GetTop(k, p).k, q)
    ensures !WriterStranded(k, q) ==> !WriterStranded(GetTop(k, p).k, q)
  {
    hide GetTop;
    IoqAfterGet(k, p);
  }

  lemma PutStrandsNobody(k: Kernel, p: Qid, b: Byte, q: Qid)
    requires Formed(k) && p in k.y.ioq && PutTop(k, p, b).Next? && q in k.y.ioq
    ensures q in PutTop(k, p, b).k.y.ioq
    ensures !ReaderStranded(k, q) ==> !ReaderStranded(PutTop(k, p, b).k, q)
    ensures !WriterStranded(k, q) ==> !WriterStranded(PutTop(k, p, b).k, q)
  {
    hide PutTop;
    IoqAfterPut(k, p, b);
  }

  /** A step strands a reader exactly when a reader that queued for the mutex gets it while there are bytes, and a
      writer exactly when a writer that queued for the mutex gets it while there is room. */
  lemma StrandedExactly(k: Kernel, a: Action, q: Qid)
    requires KInv(k) && Formed(k) && Enabled(k, a) && Step(k, a).Next? && q in k.y.ioq
    ensures q in Step(k, a).k.y.ioq
    ensures !ReaderStranded(k, q) ==> (ReaderStranded(Step(k, a).k, q) <==> BlindReader(k, a, q))
    ensures !WriterStranded(k, q) ==> (WriterStranded(Step(k, a).k, q) <==> BlindWriter(k, a, q))
  {
    hide KInv, GetTop, PutTop, DownOnce, Up, MainSchedule, Tick, Create, Empty, Full;
    match a
    case Lock(m) => IoqAfterDown(k, m, ToCaller);
    case Get(p) => GetStrandsNobody(k, p, q);
    case Put(p, b) => PutStrandsNobody(k, p, b, q);
    case Resume =>
      match k.y.place[k.s.running] {
        case InDown(m, cont) => IoqAfterDown(k, m, cont);
        case InWait(p, role) =>
          GivesBack(k, p);
          var k1 := Up(k, k.y.ioq[p].mtx).k;
          if role.Consumer? { GetStrandsNobody(k1, p, q); } else { PutStrandsNobody(k1, p, role.byte, q); }
      }
    case _ =>
  }

  // ----- whole runs -----

  ghost predicate Stranded(k: Kernel, q: Qid) {
    ReaderStranded(k, q) || WriterStranded(k, q)
  }

  ghost predicate NeverStranded(k0: Kernel, run: seq<Action>, k: Kernel, q: Qid)
    requires Reaches(k0, run, k)
    decreases |run|
  {
    !Stranded(k0, q) && (run == [] || NeverStranded(Step(k0, run[0]).k, run[1..], k, q))
  }

  ghost predicate NeverBlind(k0: Kernel, run: seq<Action>, k: Kernel, q: Qid)
    requires Reaches(k0, run, k)
    decreases |run|
  {
    run == [] || (!BlindReader(k0, run[0], q) && !BlindWriter(k0, run[0], q)
                  && NeverBlind(Step(k0, run[0]).k, run[1..], k, q))
  }

  /** A run strands nobody at q exactly when nobody in it gets the mutex late and blind. */
  lemma {:induction false} RunStrandsExactly(k0: Kernel, run: seq<Action>, k: Kernel, q: Qid)
    requires KInv(k0) && Reaches(k0, run, k) && q in k0.y.ioq && !Stranded(k0, q)
    ensures NeverStranded(k0, run, k, q) <==> NeverBlind(k0, run, k, q)
    decreases |run|
  {
    hide KInv, Step, Enabled, Formed, ReaderStranded, WriterStranded, BlindReader, BlindWriter;
    if run != [] {
      StepKeeps(k0, run[0]);
      StrandedExactly(k0, run[0], q);
      var k1 := Step(k0, run[0]).k;
      if !Stranded(k1, q) {
        RunStrandsExactly(k1, run[1..], k, q);
      }
    }
  }

  // ----- a use of the queue that strands nobody -----

  /** Whoever finds the buffer empty, or full, finds the mutex free. */
  ghost predicate Direct(k: Kernel, a: Action, q: Qid)
    requires Formed(k) && Enabled(k, a)
  {
    && (a == Get(q) && Empty(k.y.ioq[q].ring) ==> k.y.sem[k.y.ioq[q].mtx].val > 0)
    && (a.Put? && a.q == q && Full(k.y.ioq[q].ring) ==> k.y.sem[k.y.ioq[q].mtx].val > 0)
  }

  ghost predicate NobodyQueues(k: Kernel, q: Qid) {
    forall t | t in k.y.place :: !Queues(k.y.place[t], q)
  }

  function PlaceAfterDown(k: Kernel, m: Mid, cont: Cont): Place
    requires m in k.y.sem
  {
    if k.y.sem[m].val == 0 then InDown(m, cont) else if cont.ToWait? then InWait(cont.q, cont.role) else Outside
  }

  lemma PlacesAfterDown(k: Kernel, m: Mid, cont: Cont)
    requires Formed(k) && m in k.y.sem && (cont.ToWait? ==> cont.q in k.y.ioq) && DownOnce(k, m, cont).Next?
    ensures DownOnce(k, m, cont).k.y.place == k.y.place[k.s.running := PlaceAfterDown(k, m, cont)]
  {
    hide Block;
  }

  lemma PlacesAfterGet(k: Kernel, q: Qid)
    requires Formed(k) && q in k.y.ioq && GetTop(k, q).Next?
    ensures var i := k.y.ioq[q];
            GetTop(k, q).k.y.place
            == if Empty(i.ring) then k.y.place[k.s.running := PlaceAfterDown(k, i.mtx, ToWait(q, Consumer))]
               else k.y.place
  {
    hide DownOnce, Unblock;
    if Empty(k.y.ioq[q].ring) {
      PlacesAfterDown(k, k.y.ioq[q].mtx, ToWait(q, Consumer));
    }
  }

  lemma PlacesAfterPut(k: Kernel, q: Qid, b: Byte)
    requires Formed(k) && q in k.y.ioq && PutTop(k, q, b).Next?
    ensures var i := k.y.ioq[q];
            PutTop(k, q, b).k.y.place
            == if Full(i.ring) then k.y.place[k.s.running := PlaceAfterDown(k, i.mtx, ToWait(q, Producer(b)))]
               else k.y.place
  {
    hide DownOnce, Unblock;
    if Full(k.y.ioq[q].ring) {
      PlacesAfterDown(k, k.y.ioq[q].mtx, ToWait(q, Producer(b)));
    }
  }

  lemma GetQueues(k: Kernel, p: Qid, q: Qid)
    requires Formed(k) && p in k.y.ioq && GetTop(k, p).Next? && NobodyQueues(k, q)
    ensures var i := k.y.ioq[p];
            NobodyQueues(GetTop(k, p).k, q) <==> (p == q && Empty(i.ring) ==> k.y.sem[i.mtx].val > 0)
  {
    hide GetTop, Empty;
    PlacesAfterGet(k, p);
    assert k.s.running in GetTop(k, p).k.y.place;
    assert Queues(GetTop(k, p).k.y.place[k.s.running], q)
           <==> p == q && Empty(k.y.ioq[p].ring) && k.y.sem[k.y.ioq[p].mtx].val == 0;
  }

  lemma PutQueues(k: Kernel, p: Qid, b: Byte, q: Qid)
    requires Formed(k) && p in k.y.ioq && PutTop(k, p, b).Next? && NobodyQueues(k, q)
    ensures var i := k.y.ioq[p];
            NobodyQueues(PutTop(k, p, b).k, q) <==> (p == q && Full(i.ring) ==> k.y.sem[i.mtx].val > 0)
  {
    hide PutTop, Full;
    PlacesAfterPut(k, p, b);
    assert k.s.running in PutTop(k, p, b).k.y.place;
    assert Queues(PutTop(k, p, b).k.y.place[k.s.running], q)
           <==> p == q && Full(k.y.ioq[p].ring) && k.y.sem[k.y.ioq[p].mtx].val == 0;
  }

  /** While nobody is queueing for the mutex of q, a step makes somebody queue exactly when it is not direct. */
  lemma QueuesExactly(k: Kernel, a: Action, q: Qid)
    requires KInv(k) && Formed(k) && Enabled(k, a) && Step(k, a).Next? && NobodyQueues(k, q)
    ensures NobodyQueues(Step(k, a).k, q) <==> Direct(k, a, q)
  {
    hide KInv, GetTop, PutTop, DownOnce, Up, MainSchedule, Tick, Create, Empty, Full;
    match a
    case Lock(m) => PlacesAfterDown(k, m, ToCaller);
    case Unlock(m) => PlacesAfterUp(k, m);
    case Get(p) => GetQueues(k, p, q);
    case Put(p, b) => PutQueues(k, p, b, q);
    case Resume => ResumeQueuesNobody(k, q);
    case _ =>
  }

  lemma ResumeQueuesNobody(k: Kernel, q: Qid)
    requires KInv(k) && Formed(k) && Enabled(k, Resume) && Step(k, Resume).Next? && NobodyQueues(k, q)
    ensures NobodyQueues(Step(k, Resume).k, q)
  {
    hide KInv, GetTop, PutTop, DownOnce, Up, Empty, Full;
    var r := k.s.running;
    match k.y.place[r]
    case InDown(m, cont) => PlacesAfterDown(k, m, cont);
    case InWait(p, role) =>
      GivesBack(k, p);
      var k1 := Up(k, k.y.ioq[p].mtx).k;
      if role.Consumer? { PlacesAfterGet(k1, p); } else { PlacesAfterPut(k1, p, role.byte); }
  }

  lemma PlacesAfterUp(k: Kernel, m: Mid)
    requires Formed(k) && m in k.y.sem && k.s.running in k.y.held && Up(k, m).Next?
    ensures Up(k, m).k.y.place == k.y.place[k.s.running := Outside]
  {
    hide Unblock;
  }

  ghost predicate DirectRun(k0: Kernel, run: seq<Action>, k: Kernel, q: Qid)
    requires Reaches(k0, run, k)
    decreases |run|
  {
    run == [] || (Direct(k0, run[0], q) && DirectRun(Step(k0, run[0]).k, run[1..], k, q))
  }

  /** In a run in which everyone who finds the buffer empty or full finds the mutex free, a reader in the slot means an
      empty buffer, and a writer in the slot a full one. */
  lemma {:induction false} DirectUseStrandsNobody(k0: Kernel, run: seq<Action>, k: Kernel, q: Qid)
    requires KInv(k0) && NobodyQueues(k0, q) && !Stranded(k0, q) && q in k0.y.ioq
    requires Reaches(k0, run, k) && DirectRun(k0, run, k, q)
    ensures NobodyQueues(k, q) && q in k.y.ioq
    ensures k.y.ioq[q].consumer.Some? ==> Empty(k.y.ioq[q].ring)
    ensures k.y.ioq[q].producer.Some? ==> Full(k.y.ioq[q].ring)
    decreases |run|
  {
    hide KInv, Step, Enabled, Formed, Direct;
    if run != [] {
      StepKeeps(k0, run[0]);
      QueuesExactly(k0, run[0], q);
      StrandedExactly(k0, run[0], q);
      DirectUseStrandsNobody(Step(k0, run[0]).k, run[1..], k, q);
    }
  }

  /** The kernel's start is such a state. */
  lemma BootStrandsNobody(k: Kernel, idle: Tid, q: Qid)
    requires BootState(k, idle) && q in k.y.ioq
    ensures KInv(k) && NobodyQueues(k, q) && !Stranded(k, q)
  {
    hide Inv, KInv;
    BootKeeps(k, idle);
  }
}

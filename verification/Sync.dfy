/** Semaphores, mutexes and the blocking ring buffer, as state that the running thread changes in atomic steps.
    Each thread has a place: in ordinary code, inside sem_down's loop, or inside ioq_wait. */
module Synchronisation {
  import opened Options
  import opened Scheduling
  import opened RingBuffers
  import Lists = IntrusiveLists

  type Mid = nat
  type Qid = nat

  datatype Sem = Sem(val: nat, waiters: seq<Tid>)

  datatype Role = Consumer | Producer(byte: Byte)

  /** What the caller of sem_down does once it has the semaphore: return to its caller, or go on to ioq_wait. */
  datatype Cont = ToCaller | ToWait(q: Qid, role: Role)

  datatype Place = Outside | InDown(m: Mid, cont: Cont) | InWait(q: Qid, role: Role)

  datatype Ioq = Ioq(mtx: Mid, producer: Option<Tid>, consumer: Option<Tid>, ring: Ring)

  /** `held` is the set of mutexes each thread is between lock and unlock of. */
  datatype Sync = Sync(sem: map<Mid, Sem>, ioq: map<Qid, Ioq>, place: map<Tid, Place>, held: map<Tid, set<Mid>>)

  // ----- the primitive changes -----

  /** sem_down past its loop: the running thread has the semaphore. */
  function Take(y: Sync, r: Tid, m: Mid): Sync
    requires m in y.sem && r in y.held && y.sem[m].val > 0
  {
    y.(sem := y.sem[m := y.sem[m].(val := y.sem[m].val - 1)], place := y.place[r := Outside],
      held := y.held[r := y.held[r] + {m}])
  }

  /** sem_down's loop body up to thread_block. The list_elem_find check guards the push. */
  function Enqueue(y: Sync, r: Tid, m: Mid, cont: Cont): Sync
    requires m in y.sem
  {
    var w := y.sem[m].waiters;
    y.(sem := y.sem[m := y.sem[m].(waiters := if r in w then w else w + [r])], place := y.place[r := InDown(m, cont)])
  }

  /** sem_up without the wake-up: the first waiter leaves the list. */
  function Release(y: Sync, r: Tid, m: Mid): Sync
    requires m in y.sem && r in y.held
  {
    var s := y.sem[m];
    y.(sem := y.sem[m := Sem(s.val + 1, if s.waiters == [] then [] else s.waiters[1..])],
       place := y.place[r := Outside], held := y.held[r := y.held[r] - {m}])
  }

  /** ioq_wait up to thread_block. */
  function Await(y: Sync, r: Tid, q: Qid, role: Role): Sync
    requires q in y.ioq
  {
    y.(ioq := y.ioq[q := if role.Consumer? then y.ioq[q].(consumer := Some(r)) else y.ioq[q].(producer := Some(r))],
       place := y.place[r := InWait(q, role)])
  }

  function ClearConsumer(y: Sync, q: Qid): Sync
    requires q in y.ioq
  {
    y.(ioq := y.ioq[q := y.ioq[q].(consumer := None)])
  }

  function ClearProducer(y: Sync, q: Qid): Sync
    requires q in y.ioq
  {
    y.(ioq := y.ioq[q := y.ioq[q].(producer := None)])
  }

  function SetRing(y: Sync, q: Qid, ring: Ring): Sync
    requires q in y.ioq
  {
    y.(ioq := y.ioq[q := y.ioq[q].(ring := ring)])
  }

  function AddThread(y: Sync, t: Tid): Sync {
    y.(place := y.place[t := Outside], held := y.held[t := {}])
  }

  // ----- the invariant, relative to the set of blocked threads -----

  /** One unit per mutex: in `val`, or with the one thread between its lock and its unlock. */
  ghost predicate Exclusive(sem: map<Mid, Sem>, held: map<Tid, set<Mid>>) {
    && (forall m | m in sem :: sem[m].val <= 1)
    && (forall t, m | t in held && m in held[t] :: m in sem && sem[m].val == 0)
    && (forall t, u, m | t in held && u in held && m in held[t] && m in held[u] :: t == u)
    && (forall m | m in sem && sem[m].val == 0 :: exists t | t in held :: m in held[t])
  }

  /** A waiter list holds exactly the threads blocked inside that semaphore's loop, once each. */
  ghost predicate WaitersExact(sem: map<Mid, Sem>, place: map<Tid, Place>, b: set<Tid>) {
    && (forall m | m in sem :: Lists.Distinct(sem[m].waiters))
    && (forall m, t | m in sem && t in sem[m].waiters :: t in b && t in place && InLoop(place[t], m))
    && (forall t | t in b && t in place && place[t].InDown? :: place[t].m in sem && t in sem[place[t].m].waiters)
  }

  predicate InLoop(p: Place, m: Mid) {
    p.InDown? && p.m == m
  }

  /** A mutex with waiters is taken, or a thread already woken for it is still in its loop. */
  ghost predicate NoLostWakeup(sem: map<Mid, Sem>, place: map<Tid, Place>, b: set<Tid>) {
    forall m | m in sem && sem[m].waiters != [] && sem[m].val != 0 :: exists t | t in place ::
      t !in b && InLoop(place[t], m)
  }

  ghost predicate MutexInv(sem: map<Mid, Sem>, place: map<Tid, Place>, held: map<Tid, set<Mid>>, b: set<Tid>) {
    && place.Keys == held.Keys && b <= place.Keys
    && Exclusive(sem, held) && WaitersExact(sem, place, b) && NoLostWakeup(sem, place, b)
  }

  /** Blocked threads are in a loop or in ioq_wait; a thread that will wait on a queue is locking that queue's mutex. */
  ghost predicate Places(y: Sync, b: set<Tid>) {
    && (forall q | q in y.ioq :: y.ioq[q].mtx in y.sem)
    && (forall p, q | p in y.ioq && q in y.ioq && y.ioq[p].mtx == y.ioq[q].mtx :: p == q)
    && (forall t | t in b :: t in y.place && !y.place[t].Outside?)
    && (forall t | t in y.place && y.place[t].InDown? :: MayLock(y, y.place[t].m, y.place[t].cont))
  }

  predicate MayLock(y: Sync, m: Mid, cont: Cont) {
    m in y.sem && (cont.ToWait? ==> cont.q in y.ioq && y.ioq[cont.q].mtx == m)
  }

  /** Whoever is in ioq_wait owns the queue's mutex, and a slot names exactly the thread blocked there in that role. */
  ghost predicate Slots(ioq: map<Qid, Ioq>, place: map<Tid, Place>, held: map<Tid, set<Mid>>, b: set<Tid>) {
    && (forall t | t in place && place[t].InWait? :: place[t].q in ioq && t in held && ioq[place[t].q].mtx in held[t])
    && (forall q | q in ioq && ioq[q].consumer.Some? ::
          var t := ioq[q].consumer.value; t in b && t in place && place[t] == InWait(q, Consumer))
    && (forall q | q in ioq && ioq[q].producer.Some? ::
          var t := ioq[q].producer.value;
          t in b && t in place && place[t].InWait? && place[t].q == q && place[t].role.Producer?)
    && (forall t | t in b && t in place && place[t].InWait? && place[t].q in ioq ::
          if place[t].role.Consumer? then ioq[place[t].q].consumer == Some(t) else ioq[place[t].q].producer == Some(t))
  }

  ghost predicate PlaceInv(y: Sync, b: set<Tid>) {
    Places(y, b) && Slots(y.ioq, y.place, y.held, b)
  }

  ghost predicate Rings(ioq: map<Qid, Ioq>) {
    forall q | q in ioq :: Fifo(ioq[q].ring)
  }

  ghost predicate SyncInv(y: Sync, b: set<Tid>) {
    MutexInv(y.sem, y.place, y.held, b) && PlaceInv(y, b) && Rings(y.ioq)
  }

  /** The running thread may be in sem_down(m): just arrived, or back in its loop. */
  predicate AtDown(y: Sync, b: set<Tid>, r: Tid, m: Mid) {
    r in y.place && r in y.held && r !in b && m in y.sem && (y.place[r].Outside? || InLoop(y.place[r], m))
  }

  // ----- every primitive keeps it -----

  /** A unit may change hands: the holder relation is the same except at `m`, where it fits the new value. */
  lemma ExclusiveAt(sem: map<Mid, Sem>, held: map<Tid, set<Mid>>, sem': map<Mid, Sem>, r: Tid, m: Mid, has: bool)
    requires Exclusive(sem, held) && r in held && m in sem && sem'.Keys == sem.Keys
    requires forall n | n in sem && n != m :: sem'[n].val == sem[n].val
    requires if has then sem[m].val == 1 && sem'[m].val == 0 else m in held[r] && sem'[m].val == 1
    ensures Exclusive(sem', held[r := if has then held[r] + {m} else held[r] - {m}])
  {
    var held' := held[r := if has then held[r] + {m} else held[r] - {m}];
    forall n | n in sem' && sem'[n].val == 0 ensures exists t | t in held' :: n in held'[t] {
      if n == m {
        assert m in held'[r];
      } else {
        var t :| t in held && n in held[t];
        assert n in held'[t];
      }
    }
  }

  /** The woken thread that stands for a mutex is still there afterwards. */
  lemma StillWoken(sem: map<Mid, Sem>, place: map<Tid, Place>, b: set<Tid>, sem': map<Mid, Sem>,
      place': map<Tid, Place>, b': set<Tid>)
    requires NoLostWakeup(sem, place, b)
    requires forall m | m in sem' && sem'[m].waiters != [] && sem'[m].val != 0 ::
               && m in sem && sem[m].waiters != [] && sem[m].val != 0
               && forall t | t in place && t !in b && InLoop(place[t], m) ::
                  t in place' && t !in b' && InLoop(place'[t], m)
    ensures NoLostWakeup(sem', place', b')
  {
  }

  /** Nobody started or stopped being blocked in a loop, and no waiter list changed. */
  lemma WaitersSame(sem: map<Mid, Sem>, place: map<Tid, Place>, b: set<Tid>, sem': map<Mid, Sem>,
      place': map<Tid, Place>, b': set<Tid>)
    requires WaitersExact(sem, place, b) && sem'.Keys == sem.Keys
    requires forall m | m in sem :: sem'[m].waiters == sem[m].waiters
    requires forall t | t in b && t in place && place[t].InDown? :: t in b' && t in place' && place'[t] == place[t]
    requires forall t | t in b' && t in place' && place'[t].InDown? :: t in b && t in place && place'[t] == place[t]
    ensures WaitersExact(sem', place', b')
  {
  }

  lemma OneUnit(sem: map<Mid, Sem>, held: map<Tid, set<Mid>>, m: Mid)
    requires Exclusive(sem, held) && m in sem && sem[m].val > 0
    ensures sem[m].val == 1
  {
  }

  lemma TakeMutex(y: Sync, b: set<Tid>, r: Tid, m: Mid)
    requires MutexInv(y.sem, y.place, y.held, b) && AtDown(y, b, r, m) && y.sem[m].val > 0
    ensures var y' := Take(y, r, m); MutexInv(y'.sem, y'.place, y'.held, b)
  {
    hide NoLostWakeup, WaitersExact, Exclusive;
    OneUnit(y.sem, y.held, m);
    var y' := Take(y, r, m);
    ExclusiveAt(y.sem, y.held, y'.sem, r, m, true);
    WaitersSame(y.sem, y.place, b, y'.sem, y'.place, b);
    StillWoken(y.sem, y.place, b, y'.sem, y'.place, b);
  }

  /** The slots stay right when nobody enters or leaves an ioq_wait and nobody in one loses a mutex. */
  lemma SlotsSame(ioq: map<Qid, Ioq>, place: map<Tid, Place>, held: map<Tid, set<Mid>>, b: set<Tid>,
                  ioq': map<Qid, Ioq>, place': map<Tid, Place>, held': map<Tid, set<Mid>>, b': set<Tid>)
    requires Slots(ioq, place, held, b) && ioq'.Keys == ioq.Keys
    requires forall q | q in ioq ::
             ioq'[q].mtx == ioq[q].mtx && ioq'[q].producer == ioq[q].producer && ioq'[q].consumer == ioq[q].consumer
    requires forall t | t in place' && place'[t].InWait? ::
               t in place && place[t] == place'[t] && (t in held ==> t in held' && held[t] <= held'[t])
                 && (t in b' <==> t in b)
    requires forall t | t in place && place[t].InWait? :: t in place' && place'[t] == place[t]
    ensures Slots(ioq', place', held', b')
  {
  }

  lemma PlacesSame(y: Sync, b: set<Tid>, y': Sync, b': set<Tid>)
    requires Places(y, b) && y'.ioq.Keys == y.ioq.Keys && y'.sem.Keys == y.sem.Keys
    requires forall q | q in y.ioq :: y'.ioq[q].mtx == y.ioq[q].mtx
    requires forall t | t in b' :: t in y'.place && !y'.place[t].Outside?
    requires forall t | t in y'.place && y'.place[t].InDown? :: MayLock(y, y'.place[t].m, y'.place[t].cont)
    ensures Places(y', b')
  {
  }

  lemma TakeKeeps(y: Sync, b: set<Tid>, r: Tid, m: Mid)
    requires SyncInv(y, b) && AtDown(y, b, r, m) && y.sem[m].val > 0
    ensures SyncInv(Take(y, r, m), b)
    ensures Take(y, r, m).held[r] == y.held[r] + {m} && Take(y, r, m).place[r].Outside?
  {
    hide MutexInv, Rings, Slots;
    TakeMutex(y, b, r, m);
    var y' := Take(y, r, m);
    PlacesSame(y, b, y', b);
    SlotsSame(y.ioq, y.place, y.held, b, y'.ioq, y'.place, y'.held, b);
  }

  lemma EnqueueWaiting(y: Sync, b: set<Tid>, r: Tid, m: Mid, cont: Cont)
    requires WaitersExact(y.sem, y.place, b) && AtDown(y, b, r, m)
    ensures r !in y.sem[m].waiters
    ensures var y' := Enqueue(y, r, m, cont); WaitersExact(y'.sem, y'.place, b + {r})
  {
  }

  lemma EnqueueMutex(y: Sync, b: set<Tid>, r: Tid, m: Mid, cont: Cont)
    requires MutexInv(y.sem, y.place, y.held, b) && AtDown(y, b, r, m) && y.sem[m].val == 0
    ensures r !in y.sem[m].waiters
    ensures var y' := Enqueue(y, r, m, cont); MutexInv(y'.sem, y'.place, y'.held, b + {r})
  {
    hide NoLostWakeup, WaitersExact, Exclusive;
    var y' := Enqueue(y, r, m, cont);
    ExclusiveSame(y.sem, y.held, y'.sem);
    EnqueueWaiting(y, b, r, m, cont);
    StillWoken(y.sem, y.place, b, y'.sem, y'.place, b + {r});
  }

  lemma ExclusiveSame(sem: map<Mid, Sem>, held: map<Tid, set<Mid>>, sem': map<Mid, Sem>)
    requires Exclusive(sem, held) && sem'.Keys == sem.Keys && forall m | m in sem :: sem'[m].val == sem[m].val
    ensures Exclusive(sem', held)
  {
  }

  lemma EnqueueKeeps(y: Sync, b: set<Tid>, r: Tid, m: Mid, cont: Cont)
    requires SyncInv(y, b) && AtDown(y, b, r, m) && y.sem[m].val == 0 && MayLock(y, m, cont)
    ensures r !in y.sem[m].waiters
    ensures SyncInv(Enqueue(y, r, m, cont), b + {r})
  {
    hide MutexInv, Rings, Slots;
    EnqueueMutex(y, b, r, m, cont);
    var y' := Enqueue(y, r, m, cont);
    PlacesSame(y, b, y', b + {r});
    SlotsSame(y.ioq, y.place, y.held, b, y'.ioq, y'.place, y'.held, b + {r});
  }

  /** Leaving ordinary code or a queue's wait does not disturb the mutexes. */
  lemma MovedMutex(y: Sync, b: set<Tid>, place: map<Tid, Place>, b': set<Tid>)
    requires MutexInv(y.sem, y.place, y.held, b) && place.Keys == y.place.Keys && b' <= place.Keys
    requires forall t | t in place && (place[t] != y.place[t] || (t in b) != (t in b')) ::
             !place[t].InDown? && !y.place[t].InDown?
    ensures MutexInv(y.sem, place, y.held, b')
  {
    hide Exclusive, NoLostWakeup, WaitersExact;
    WaitersSame(y.sem, y.place, b, y.sem, place, b');
    StillWoken(y.sem, y.place, b, y.sem, place, b');
  }

  /** A queue's mutex is owned by nobody in its ioq_wait except the owner itself. */
  lemma OwnerIsAlone(y: Sync, b: set<Tid>, r: Tid, q: Qid)
    requires MutexInv(y.sem, y.place, y.held, b) && Slots(y.ioq, y.place, y.held, b)
    requires q in y.ioq && r in y.held && y.ioq[q].mtx in y.held[r] && r !in b
    ensures y.ioq[q].consumer.None? && y.ioq[q].producer.None?
    ensures forall t | t in y.place && t != r && y.place[t].InWait? :: y.place[t].q != q
  {
    hide WaitersExact, NoLostWakeup;
  }

  lemma AwaitPlaces(y: Sync, b: set<Tid>, r: Tid, q: Qid, role: Role)
    requires PlaceInv(y, b) && r in y.place && r !in b && y.place[r].Outside?
    requires q in y.ioq && r in y.held && y.ioq[q].mtx in y.held[r]
    requires y.ioq[q].consumer.None? && y.ioq[q].producer.None?
    requires forall t | t in y.place && t != r && y.place[t].InWait? :: y.place[t].q != q
    ensures PlaceInv(Await(y, r, q, role), b + {r})
  {
    hide Slots;
    var y' := Await(y, r, q, role);
    PlacesSame(y, b, y', b + {r});
    AwaitSlots(y, b, r, q, role);
  }

  lemma AwaitSlots(y: Sync, b: set<Tid>, r: Tid, q: Qid, role: Role)
    requires Slots(y.ioq, y.place, y.held, b) && r in y.place && r !in b && y.place[r].Outside?
    requires q in y.ioq && r in y.held && y.ioq[q].mtx in y.held[r]
    requires y.ioq[q].consumer.None? && y.ioq[q].producer.None?
    requires forall t | t in y.place && t != r && y.place[t].InWait? :: y.place[t].q != q
    ensures var y' := Await(y, r, q, role); Slots(y'.ioq, y'.place, y'.held, b + {r})
  {
  }

  lemma AwaitKeeps(y: Sync, b: set<Tid>, r: Tid, q: Qid, role: Role)
    requires SyncInv(y, b) && r in y.place && r !in b && y.place[r].Outside?
    requires q in y.ioq && r in y.held && y.ioq[q].mtx in y.held[r]
    ensures y.ioq[q].consumer.None? && y.ioq[q].producer.None?
    ensures SyncInv(Await(y, r, q, role), b + {r})
  {
    hide Fifo, WaitersExact, NoLostWakeup, Exclusive, Slots, Places;
    OwnerIsAlone(y, b, r, q);
    MovedMutex(y, b, Await(y, r, q, role).place, b + {r});
    AwaitPlaces(y, b, r, q, role);
  }

  // ----- release -----

  /** The first waiter of one semaphore stops being blocked and leaves its list. */
  lemma FrontLeaves(sem: map<Mid, Sem>, place: map<Tid, Place>, b: set<Tid>, sem': map<Mid, Sem>,
      place': map<Tid, Place>, m: Mid)
    requires WaitersExact(sem, place, b) && sem'.Keys == sem.Keys && place'.Keys == place.Keys
    requires m in sem && sem[m].waiters != [] && sem'[m].waiters == sem[m].waiters[1..]
    requires forall n | n in sem && n != m :: sem'[n].waiters == sem[n].waiters
    requires forall t | t in b && t in place :: place'[t] == place[t]
    ensures sem[m].waiters[0] in b && sem[m].waiters[0] in place && InLoop(place[sem[m].waiters[0]], m)
    ensures WaitersExact(sem', place', b - {sem[m].waiters[0]})
  {
    var w, f := sem[m].waiters, sem[m].waiters[0];
    assert f in w;
    Lists.TailDistinct(w);
    forall n, t | n in sem' && t in sem'[n].waiters ensures t in b && t != f && t in place' && InLoop(place'[t], n) {
      assert t in sem[n].waiters;
    }
    forall t | t in b && t != f && t in place' && place'[t].InDown?
      ensures place'[t].m in sem' && t in sem'[place'[t].m].waiters {
      assert t in sem[place[t].m].waiters;
      assert w == [f] + w[1..];
    }
  }

  lemma ReleaseWaiting(y: Sync, b: set<Tid>, r: Tid, m: Mid, b': set<Tid>)
    requires WaitersExact(y.sem, y.place, b) && r in y.place && r in y.held && r !in b && m in y.sem
             && !y.place[r].InDown?
    requires b' == if y.sem[m].waiters == [] then b else b - {y.sem[m].waiters[0]}
    ensures var y' := Release(y, r, m); WaitersExact(y'.sem, y'.place, b')
    ensures y.sem[m].waiters != [] ==>
              var t := y.sem[m].waiters[0]; t in b && t in y.place && InLoop(y.place[t], m)
  {
    hide WaitersExact;
    var y' := Release(y, r, m);
    if y.sem[m].waiters == [] {
      WaitersSame(y.sem, y.place, b, y'.sem, y'.place, b');
    } else {
      FrontLeaves(y.sem, y.place, b, y'.sem, y'.place, m);
    }
  }

  lemma ReleaseMutex(y: Sync, b: set<Tid>, r: Tid, m: Mid, b': set<Tid>)
    requires MutexInv(y.sem, y.place, y.held, b) && r in y.place && r in y.held && r !in b && m in y.held[r]
             && m in y.sem && !y.place[r].InDown?
    requires y.sem[m].val == 0
    requires b' == if y.sem[m].waiters == [] then b else b - {y.sem[m].waiters[0]}
    ensures var y' := Release(y, r, m); MutexInv(y'.sem, y'.place, y'.held, b')
    ensures y.sem[m].waiters != [] ==> y.sem[m].waiters[0] in b && InLoop(y.place[y.sem[m].waiters[0]], m)
  {
    hide Exclusive, WaitersExact;
    var y' := Release(y, r, m);
    ExclusiveAt(y.sem, y.held, y'.sem, r, m, false);
    ReleaseWaiting(y, b, r, m, b');
    forall n | n in y'.sem && y'.sem[n].waiters != [] && y'.sem[n].val != 0
      ensures exists t | t in y'.place :: t !in b' && InLoop(y'.place[t], n)
    {
      if n == m {
        assert InLoop(y'.place[y.sem[m].waiters[0]], m);
      } else {
        var t :| t in y.place && t !in b && InLoop(y.place[t], n);
        assert InLoop(y'.place[t], n);
      }
    }
  }

  lemma ReleasePlaces(y: Sync, b: set<Tid>, r: Tid, m: Mid, b': set<Tid>)
    requires PlaceInv(y, b) && r in y.place && r in y.held && r !in b && m in y.sem && b' <= b
    requires y.place[r].Outside? || (y.place[r].InWait? && y.place[r].q in y.ioq && y.ioq[y.place[r].q].mtx == m)
    requires forall t | t in y.place && t != r && y.place[t].InWait? ::
             y.place[t].q in y.ioq && t in y.held && m !in y.held[t]
    requires forall t | t in b && t !in b' :: t in y.place && y.place[t].InDown?
    ensures PlaceInv(Release(y, r, m), b')
  {
  }

  lemma HeldByOne(sem: map<Mid, Sem>, held: map<Tid, set<Mid>>, r: Tid, m: Mid)
    requires Exclusive(sem, held) && r in held && m in held[r]
    ensures m in sem && sem[m].val == 0 && forall t | t in held && t != r :: m !in held[t]
  {
  }

  lemma ReleaseKeeps(y: Sync, b: set<Tid>, r: Tid, m: Mid, b': set<Tid>)
    requires SyncInv(y, b) && r in y.place && r in y.held && r !in b && m in y.held[r] && m in y.sem
    requires y.place[r].Outside? || (y.place[r].InWait? && y.place[r].q in y.ioq && y.ioq[y.place[r].q].mtx == m)
    requires b' == if y.sem[m].waiters == [] then b else b - {y.sem[m].waiters[0]}
    ensures y.sem[m].val == 0 && (y.sem[m].waiters != [] ==> y.sem[m].waiters[0] in b)
    ensures SyncInv(Release(y, r, m), b')
  {
    hide Exclusive, WaitersExact, NoLostWakeup, Fifo, Places, Slots;
    HeldByOne(y.sem, y.held, r, m);
    ReleaseMutex(y, b, r, m, b');
    WaitersOwn(y, b);
    ReleasePlaces(y, b, r, m, b');
  }

  lemma WaitersOwn(y: Sync, b: set<Tid>)
    requires PlaceInv(y, b)
    ensures forall t | t in y.place && y.place[t].InWait? ::
            y.place[t].q in y.ioq && t in y.held && y.ioq[y.place[t].q].mtx in y.held[t]
  {
  }

  // ----- the slots, the bytes, new threads -----

  lemma ClearConsumerKeeps(y: Sync, b: set<Tid>, q: Qid)
    requires SyncInv(y, b) && q in y.ioq && y.ioq[q].consumer.Some?
    ensures y.ioq[q].consumer.value in b
    ensures SyncInv(ClearConsumer(y, q), b - {y.ioq[q].consumer.value})
  {
    hide Fifo, MutexInv, Slots;
    ConsumerLeaves(y.ioq, y.place, y.held, b, q);
    MovedMutex(y, b, y.place, b - {y.ioq[q].consumer.value});
  }

  lemma ConsumerLeaves(ioq: map<Qid, Ioq>, place: map<Tid, Place>, held: map<Tid, set<Mid>>, b: set<Tid>, q: Qid)
    requires Slots(ioq, place, held, b) && q in ioq && ioq[q].consumer.Some?
    ensures var t := ioq[q].consumer.value;
            && t in b && t in place && place[t].InWait?
            && Slots(ioq[q := ioq[q].(consumer := None)], place, held, b - {t})
  {
  }

  lemma ProducerLeaves(ioq: map<Qid, Ioq>, place: map<Tid, Place>, held: map<Tid, set<Mid>>, b: set<Tid>, q: Qid)
    requires Slots(ioq, place, held, b) && q in ioq && ioq[q].producer.Some?
    ensures var t := ioq[q].producer.value;
            && t in b && t in place && place[t].InWait?
            && Slots(ioq[q := ioq[q].(producer := None)], place, held, b - {t})
  {
  }

  lemma ClearProducerKeeps(y: Sync, b: set<Tid>, q: Qid)
    requires SyncInv(y, b) && q in y.ioq && y.ioq[q].producer.Some?
    ensures y.ioq[q].producer.value in b
    ensures SyncInv(ClearProducer(y, q), b - {y.ioq[q].producer.value})
  {
    hide Fifo, MutexInv, Slots;
    ProducerLeaves(y.ioq, y.place, y.held, b, q);
    MovedMutex(y, b, y.place, b - {y.ioq[q].producer.value});
  }

  lemma SetRingKeeps(y: Sync, b: set<Tid>, q: Qid, ring: Ring)
    requires SyncInv(y, b) && q in y.ioq && Fifo(ring)
    ensures SyncInv(SetRing(y, q, ring), b)
  {
    hide Fifo, MutexInv, Slots, Places;
    var y' := SetRing(y, q, ring);
    PlacesSameIoq(y, b, y');
    SlotsSame(y.ioq, y.place, y.held, b, y'.ioq, y'.place, y'.held, b);
  }

  lemma PlacesSameIoq(y: Sync, b: set<Tid>, y': Sync)
    requires Places(y, b) && y' == y.(ioq := y'.ioq) && y'.ioq.Keys == y.ioq.Keys
    requires forall q | q in y.ioq :: y'.ioq[q].mtx == y.ioq[q].mtx
    ensures Places(y', b)
  {
    PlacesSame(y, b, y', b);
  }

  lemma AddThreadPlaces(y: Sync, b: set<Tid>, t: Tid)
    requires PlaceInv(y, b) && t !in y.place && t !in y.held && t !in b
    ensures PlaceInv(AddThread(y, t), b)
  {
    hide Slots;
    var y' := AddThread(y, t);
    PlacesSame(y, b, y', b);
    SlotsSame(y.ioq, y.place, y.held, b, y'.ioq, y'.place, y'.held, b);
  }

  lemma AddThreadKeeps(y: Sync, b: set<Tid>, t: Tid)
    requires SyncInv(y, b) && t !in y.place
    ensures SyncInv(AddThread(y, t), b)
  {
    hide Fifo, NoLostWakeup, WaitersExact, Exclusive, Places, Slots;
    var y' := AddThread(y, t);
    WaitersSame(y.sem, y.place, b, y.sem, y'.place, b);
    StillWoken(y.sem, y.place, b, y.sem, y'.place, b);
    ExclusiveAdd(y.sem, y.held, t);
    AddThreadPlaces(y, b, t);
  }

  lemma ExclusiveAdd(sem: map<Mid, Sem>, held: map<Tid, set<Mid>>, t: Tid)
    requires Exclusive(sem, held) && t !in held
    ensures Exclusive(sem, held[t := {}])
  {
    var held' := held[t := {}];
    forall m | m in sem && sem[m].val == 0 ensures exists u | u in held' :: m in held'[u] {
      var u :| u in held && m in held[u];
      assert m in held'[u];
    }
  }
}

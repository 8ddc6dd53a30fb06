/** sync.c and ioqueue.c as methods on the kernel's data: semaphores with their waiters on an intrusive list, I/O queues
    with their ring in an array. A C function that blocks is cut where the processor goes to another thread: each method
    here runs from one such point to the next, on behalf of the running thread. */
module SyncObjects {
  import opened Options
  import S = Scheduling
  import P = Preemption
  import Lists = IntrusiveLists
  import opened Synchronisation
  import opened RingBuffers
  import opened KernelMachine
  import O = SchedulerObjects

  class Semaphore {
    var val: nat
    const waiters: Lists.List

    /** sem_init */
    constructor (val: nat)
      ensures this.val == val && fresh(waiters) && fresh(waiters.head) && fresh(waiters.tail)
      ensures Lists.Chain(Lists.Nodes(waiters, []))
    {
      this.val := val;
      waiters := new Lists.List();
    }
  }

  class IoQueue {
    const mtx: Mid
    var producer: Option<S.Tid>
    var consumer: Option<S.Tid>
    const ring: IoRing

    /** ioqueue_init */
    constructor (mtx: Mid)
      ensures this.mtx == mtx && producer.None? && consumer.None?
      ensures fresh(ring) && fresh(ring.buf) && ring.Valid() && ring.Contents() == [] && ring.put == []
    {
      this.mtx := mtx;
      producer, consumer := None, None;
      ring := new IoRing();
    }
  }

  // ----- the values that the objects stand for -----

  ghost function Waiters(sems: seq<Semaphore>): (ws: seq<Lists.List>)
    ensures |ws| == |sems|
  {
    seq(|sems|, m requires 0 <= m < |sems| => sems[m].waiters)
  }

  ghost function Sems(sems: seq<Semaphore>, queued: seq<seq<S.Tid>>): map<Mid, Sem>
    requires |queued| == |sems|
    reads sems
  {
    map m: Mid | m < |sems| :: Sem(sems[m].val, queued[m])
  }

  ghost function Queues(queues: seq<IoQueue>, cells: set<object>): map<Qid, Ioq>
    requires Owned(queues, cells)
    reads cells
  {
    map q: Qid | q < |queues| :: Ioq(queues[q].mtx, queues[q].producer, queues[q].consumer, queues[q].ring.Abs())
  }

  ghost predicate Owned(queues: seq<IoQueue>, cells: set<object>) {
    forall q | 0 <= q < |queues| :: queues[q] in cells && queues[q].ring in cells && queues[q].ring.buf in cells
  }

  ghost predicate Apart(queues: seq<IoQueue>) {
    forall p, q | 0 <= p < q < |queues| ::
      queues[p] != queues[q] && queues[p].ring != queues[q].ring && queues[p].ring.buf != queues[q].ring.buf
  }

  ghost predicate Working(queues: seq<IoQueue>, cells: set<object>, sems: nat)
    requires Owned(queues, cells)
    reads cells
  {
    forall q | 0 <= q < |queues| :: queues[q].mtx < sems && queues[q].ring.Valid()
  }

  lemma SemsDistinct(sems: seq<Semaphore>, lists: Lists.Family)
    requires O.Separate(Waiters(sems), lists)
    ensures Lists.Distinct(sems)
  {
    forall i, j | 0 <= i < j < |sems| ensures sems[i] != sems[j] {
      assert Waiters(sems)[i] != Waiters(sems)[j];
    }
  }

  lemma SemsQueued(sems: seq<Semaphore>, queued: seq<seq<S.Tid>>, m: Mid, w: seq<S.Tid>)
    requires |queued| == |sems| && m < |sems|
    ensures m in Sems(sems, queued) && Sems(sems, queued)[m].waiters == queued[m]
    ensures Sems(sems, queued[m := w]) == Sems(sems, queued)[m := Sems(sems, queued)[m].(waiters := w)]
  {
  }

  function WithVal(k: Kernel, m: Mid, v: nat): Kernel {
    if m in k.y.sem then k.(y := k.y.(sem := k.y.sem[m := k.y.sem[m].(val := v)])) else k
  }

  function Raised(k: Kernel, m: Mid): Kernel {
    if m in k.y.sem then WithVal(k, m, k.y.sem[m].val + 1) else k
  }

  function WithWaiters(k: Kernel, m: Mid, w: seq<S.Tid>): Kernel {
    if m in k.y.sem then k.(y := k.y.(sem := k.y.sem[m := k.y.sem[m].(waiters := w)])) else k
  }

  function WithConsumer(k: Kernel, q: Qid, v: Option<S.Tid>): Kernel {
    if q in k.y.ioq then k.(y := k.y.(ioq := k.y.ioq[q := k.y.ioq[q].(consumer := v)])) else k
  }

  function WithProducer(k: Kernel, q: Qid, v: Option<S.Tid>): Kernel {
    if q in k.y.ioq then k.(y := k.y.(ioq := k.y.ioq[q := k.y.ioq[q].(producer := v)])) else k
  }

  function WithRing(k: Kernel, q: Qid, ring: Ring): Kernel {
    if q in k.y.ioq then k.(y := SetRing(k.y, q, ring)) else k
  }

  lemma OtherQueues(queues: seq<IoQueue>, q: nat)
    requires Apart(queues) && q < |queues|
    ensures forall i | 0 <= i < |queues| && i != q ::
              queues[i] != queues[q] && queues[i].ring != queues[q].ring && queues[i].ring.buf != queues[q].ring.buf
  {
  }

  method StoreConsumer(queues: seq<IoQueue>, q: nat, v: Option<S.Tid>, ghost cells: set<object>, ghost sems: nat)
    requires q < |queues| && Owned(queues, cells) && Apart(queues) && Working(queues, cells, sems)
    modifies queues[q]
    ensures Working(queues, cells, sems)
    ensures var ioq := old(Queues(queues, cells)); q in ioq && Queues(queues, cells) == ioq[q := ioq[q].(consumer := v)]
  {
    hide Fifo, Apart;
    OtherQueues(queues, q);
    ghost var ioq := Queues(queues, cells);
    queues[q].consumer := v;
    assert Queues(queues, cells) == ioq[q := ioq[q].(consumer := v)];
  }

  method StoreProducer(queues: seq<IoQueue>, q: nat, v: Option<S.Tid>, ghost cells: set<object>, ghost sems: nat)
    requires q < |queues| && Owned(queues, cells) && Apart(queues) && Working(queues, cells, sems)
    modifies queues[q]
    ensures Working(queues, cells, sems)
    ensures var ioq := old(Queues(queues, cells)); q in ioq && Queues(queues, cells) == ioq[q := ioq[q].(producer := v)]
  {
    hide Fifo, Apart;
    OtherQueues(queues, q);
    ghost var ioq := Queues(queues, cells);
    queues[q].producer := v;
    assert Queues(queues, cells) == ioq[q := ioq[q].(producer := v)];
  }

  method GetFrom(queues: seq<IoQueue>, q: nat, ghost cells: set<object>, ghost sems: nat) returns (b: Byte)
    requires q < |queues| && Owned(queues, cells) && Apart(queues) && Working(queues, cells, sems)
    requires !Empty(queues[q].ring.Abs())
    modifies queues[q].ring
    ensures Working(queues, cells, sems)
    ensures var ring, ioq := old(queues[q].ring.Abs()), old(Queues(queues, cells));
            && Fifo(ring) && |ring.got| < |ring.put| && b == ring.put[|ring.got|]
            && q in ioq && Queues(queues, cells) == ioq[q := ioq[q].(ring := Pop(ring))]
  {
    hide Fifo, Apart;
    OtherQueues(queues, q);
    Taken(queues[q].ring.Abs());
    ghost var ring, ioq := queues[q].ring.Abs(), Queues(queues, cells);
    b := queues[q].ring.GetByte();
    assert forall i | 0 <= i < |queues| && i != q :: queues[i].ring.Valid() && queues[i].ring.Abs() == ioq[i].ring;
    assert Queues(queues, cells) == ioq[q := ioq[q].(ring := Pop(ring))];
  }

  lemma Taken(q: Ring)
    requires Fifo(q)
    ensures q.tail < |q.buf| && q.head < |q.buf| && |q.got| <= |q.put|
    ensures !Empty(q) ==> |q.got| < |q.put|
    ensures Full(q) <==> |q.put| - |q.got| == BUF_SIZE - 1
    ensures |q.put| - |q.got| <= BUF_SIZE - 1
  {
    Capacity(q);
  }

  method PutInto(queues: seq<IoQueue>, q: nat, b: Byte, ghost cells: set<object>, ghost sems: nat)
    requires q < |queues| && Owned(queues, cells) && Apart(queues) && Working(queues, cells, sems)
    requires !Full(queues[q].ring.Abs())
    modifies queues[q].ring, queues[q].ring.buf
    ensures Working(queues, cells, sems)
    ensures var ring, ioq := old(queues[q].ring.Abs()), old(Queues(queues, cells));
            Fifo(ring) && q in ioq && Queues(queues, cells) == ioq[q := ioq[q].(ring := Push(ring, b))]
  {
    hide Fifo, Apart;
    OtherQueues(queues, q);
    Taken(queues[q].ring.Abs());
    ghost var ring, ioq := queues[q].ring.Abs(), Queues(queues, cells);
    queues[q].ring.PutByte(b);
    assert forall i | 0 <= i < |queues| && i != q :: queues[i].ring.Valid() && queues[i].ring.Abs() == ioq[i].ring;
    assert Queues(queues, cells) == ioq[q := ioq[q].(ring := Push(ring, b))];
  }

  /** Two groups of lists that share nothing but the family they are in. */
  ghost predicate Groups(rq: seq<Lists.List>, ws: seq<Lists.List>, lists: Lists.Family,
                         entry: O.Entry, tags: O.Tags, wentry: O.Entry, wtags: O.Tags) {
    && O.Separate(rq, lists) && O.Tagged(rq, lists, entry, tags)
    && O.Separate(ws, lists) && O.Tagged(ws, lists, wentry, wtags)
    && (forall w | w in ws :: w !in rq) && O.TagSet(tags) !! O.TagSet(wtags)
  }

  lemma NoReadyTags(rq: seq<Lists.List>, ws: seq<Lists.List>, lists: Lists.Family,
                    entry: O.Entry, tags: O.Tags, wentry: O.Entry, wtags: O.Tags, m: Mid, s: seq<Lists.ListElem>)
    requires Groups(rq, ws, lists, entry, tags, wentry, wtags) && m < |ws|
    requires forall e | e in s :: e in lists[ws[m]] || e in O.TagSet(wtags)
    ensures ws[m] in lists && ws[m] !in rq && forall t | t in tags :: tags[t] !in s
  {
    var w := ws[m];
    assert w in ws;
    O.Foreign(ws, lists, wentry, wtags, w);
    forall t | t in tags ensures tags[t] !in s {
      assert tags[t] in O.TagSet(tags);
    }
  }

  /** A pend_tag goes to the back of list m of the second group. */
  lemma Appended(rq: seq<Lists.List>, ws: seq<Lists.List>, lists: Lists.Family,
                 entry: O.Entry, tags: O.Tags, wentry: O.Entry, wtags: O.Tags, m: Mid, t: S.Tid)
    requires Groups(rq, ws, lists, entry, tags, wentry, wtags) && Lists.Holds(lists)
    requires m < |ws| && t in wtags && forall i | 0 <= i < |ws| :: t !in O.Queues(ws, lists, wentry)[i]
    ensures ws[m] in lists && ws[m] !in rq && wtags[t] !in Lists.Footprint(lists) && wtags[t] in O.TagSet(wtags)
    ensures forall u | u in tags :: tags[u] !in lists[ws[m]] + [wtags[t]]
    ensures var lists' := lists[ws[m] := lists[ws[m]] + [wtags[t]]];
            && Groups(rq, ws, lists', entry, tags, wentry, wtags)
            && Lists.Footprint(lists') == Lists.Footprint(lists) + {wtags[t]}
            && O.Queues(rq, lists', entry) == O.Queues(rq, lists, entry)
            && O.Queues(ws, lists', wentry)
               == O.Queues(ws, lists, wentry)[m := O.Queues(ws, lists, wentry)[m] + [t]]
  {
    hide O.Tagged, O.Queues, O.Ids, O.TagSet, Lists.Holds, Lists.Footprint;
    var s := lists[ws[m]] + [wtags[t]];
    O.Unqueued(ws, lists, wentry, wtags, t);
    O.LinkedQueue(ws, lists, wentry, wtags, m, t, s);
    InTags(wtags, t);
    NoReadyTags(rq, ws, lists, entry, tags, wentry, wtags, m, s);
    O.OutsideReplaced(rq, lists, entry, tags, ws[m], s);
  }

  lemma InTags(tags: O.Tags, t: S.Tid)
    requires t in tags
    ensures tags[t] in O.TagSet(tags)
  {
  }

  /** The first pend_tag of list m leaves it. */
  lemma Popped(rq: seq<Lists.List>, ws: seq<Lists.List>, lists: Lists.Family,
               entry: O.Entry, tags: O.Tags, wentry: O.Entry, wtags: O.Tags, m: Mid)
    requires Groups(rq, ws, lists, entry, tags, wentry, wtags) && Lists.Holds(lists)
    requires m < |ws| && O.Queues(ws, lists, wentry)[m] != []
    ensures ws[m] in lists && ws[m] !in rq && lists[ws[m]] != []
    ensures forall u | u in tags :: tags[u] !in lists[ws[m]]
    ensures var e, lists' := lists[ws[m]][0], lists[ws[m] := lists[ws[m]][1..]];
            && e in wentry && wentry[e] == O.Queues(ws, lists, wentry)[m][0] && e in O.TagSet(wtags)
            && Groups(rq, ws, lists', entry, tags, wentry, wtags)
            && Lists.Footprint(lists') + {e} == Lists.Footprint(lists)
            && O.Queues(rq, lists', entry) == O.Queues(rq, lists, entry)
            && O.Queues(ws, lists', wentry) == O.Queues(ws, lists, wentry)[m := O.Queues(ws, lists, wentry)[m][1..]]
  {
    hide O.Tagged, O.Ids, O.TagSet, Lists.Holds, Lists.Footprint;
    var e, s := lists[ws[m]][0], lists[ws[m]][1..];
    O.PoppedQueue(ws, lists, wentry, wtags, m);
    InTags(wtags, wentry[e]);
    NoReadyTags(rq, ws, lists, entry, tags, wentry, wtags, m, lists[ws[m]]);
    assert forall x | x in s :: x in lists[ws[m]];
    O.OutsideReplaced(rq, lists, entry, tags, ws[m], s);
  }

  lemma SameCells(cells: set<object>, r: set<object>, r': set<object>, tags: set<object>, e: object)
    requires cells !! r && cells !! tags && e in tags && r + {e} == r' + {e}
    ensures cells !! r' && cells + r + tags == cells + r' + tags
  {
    assert forall x :: x in r || x == e <==> x in r' || x == e;
  }

  /** The scheduler moves its own tags. */
  lemma GroupsKept(rq: seq<Lists.List>, ws: seq<Lists.List>, lists: Lists.Family, lists': Lists.Family,
                   entry: O.Entry, entry': O.Entry, tags: O.Tags, wentry: O.Entry, wtags: O.Tags)
    requires Groups(rq, ws, lists, entry, tags, wentry, wtags)
    requires O.Separate(rq, lists') && O.Tagged(rq, lists', entry', tags) && O.Others(rq, lists') == O.Others(rq, lists)
    ensures Groups(rq, ws, lists', entry', tags, wentry, wtags)
    ensures O.Queues(ws, lists', wentry) == O.Queues(ws, lists, wentry)
  {
    hide O.Tagged, O.Queues, O.Others, O.TagSet;
    O.GroupKept(rq, ws, lists, lists', entry', tags, wentry, wtags);
  }

  /** Being found on the list is being among the waiters. */
  lemma Found(ws: seq<Lists.List>, lists: Lists.Family, wentry: O.Entry, wtags: O.Tags, m: nat, t: S.Tid)
    requires O.Separate(ws, lists) && m < |ws| && O.Tagged(ws, lists, wentry, wtags) && t in wtags && Lists.Holds(lists)
    ensures wtags[t] in lists[ws[m]] <==> t in O.Queues(ws, lists, wentry)[m]
    ensures wtags[t] != ws[m].head && wtags[t] != ws[m].tail
  {
    O.TagsAreNoSentinels(ws, lists, wentry, wtags, m);
    if wtags[t] in lists[ws[m]] {
      O.IdsOf(wentry, lists[ws[m]], wtags[t]);
    }
    if t in O.Queues(ws, lists, wentry)[m] {
      O.TagIsThere(ws, lists, wentry, wtags, m, t);
    }
  }

  /** A new thread's ready_tag. */
  lemma GroupsGrown(rq: seq<Lists.List>, ws: seq<Lists.List>, lists: Lists.Family, lists': Lists.Family,
                    entry: O.Entry, entry': O.Entry, tags: O.Tags, wentry: O.Entry, wtags: O.Tags,
                    t: S.Tid, rTag: Lists.ListElem)
    requires Groups(rq, ws, lists, entry, tags, wentry, wtags) && t !in tags && rTag !in O.TagSet(wtags)
    requires O.Separate(rq, lists') && O.Tagged(rq, lists', entry', tags[t := rTag])
    requires O.Others(rq, lists') == O.Others(rq, lists)
    ensures Groups(rq, ws, lists', entry', tags[t := rTag], wentry, wtags)
    ensures O.Queues(ws, lists', wentry) == O.Queues(ws, lists, wentry)
  {
    hide O.Tagged, O.Queues, O.Others;
    NewTag(tags, t, rTag);
    hide O.TagSet;
    O.GroupKept(rq, ws, lists, lists', entry', tags[t := rTag], wentry, wtags);
  }

  /** A new thread's pend_tag. */
  lemma GroupsEnrolled(rq: seq<Lists.List>, ws: seq<Lists.List>, lists: Lists.Family,
                       entry: O.Entry, tags: O.Tags, wentry: O.Entry, wtags: O.Tags, t: S.Tid, pTag: Lists.ListElem)
    requires Groups(rq, ws, lists, entry, tags, wentry, wtags) && t !in wtags
    requires pTag !in O.TagSet(tags) && pTag !in wentry && pTag !in Lists.Footprint(lists)
    ensures Groups(rq, ws, lists, entry, tags, wentry[pTag := t], wtags[t := pTag])
    ensures O.Queues(ws, lists, wentry[pTag := t]) == O.Queues(ws, lists, wentry)
    ensures O.TagSet(wtags[t := pTag]) == O.TagSet(wtags) + {pTag}
  {
    hide O.Tagged, O.Queues, Lists.Footprint;
    NewTag(wtags, t, pTag);
    hide O.TagSet;
    O.TagAdded(ws, lists, wentry, wtags, t, pTag);
  }

  lemma NewTag(tags: O.Tags, t: S.Tid, tag: Lists.ListElem)
    requires t !in tags
    ensures O.TagSet(tags[t := tag]) == O.TagSet(tags) + {tag}
  {
    forall e ensures e in O.TagSet(tags[t := tag]) <==> e in O.TagSet(tags) || e == tag {
      if e in O.TagSet(tags) {
        var u :| u in tags && tags[u] == e;
        assert tags[t := tag][u] == e;
      }
      assert tags[t := tag][t] == tag;
    }
  }

  lemma SchedLists(sched: O.Scheduler)
    requires sched.Valid()
    ensures O.Separate(sched.rq, sched.lists) && O.Tagged(sched.rq, sched.lists, sched.entry, sched.readyTag)
  {
  }

  /** The running thread is on no waiter list. */
  lemma RunningWaitsNowhere(k: Kernel)
    requires KInv(k)
    ensures k.s.running in k.s.tcb && forall m | m in k.y.sem :: k.s.running !in k.y.sem[m].waiters
  {
    hide S.QueuedBut, Exclusive, NoLostWakeup, PlaceInv, Rings, Lists.Distinct;
  }

  function Moved(k: Kernel, p: map<S.Tid, Place>, h: map<S.Tid, set<Mid>>): Kernel {
    k.(y := k.y.(place := p, held := h))
  }

  /** The assignments before sem_down blocks make the state that DownOnce puts to sleep. */
  lemma Queuing(k: Kernel, m: Mid, cont: Cont)
    requires KInv(k) && Formed(k) && m in k.y.sem && (cont.ToWait? ==> cont.q in k.y.ioq)
    requires k.y.sem[m].val == 0 && DownOnce(k, m, cont).Next?
    ensures var r, w := k.s.running, k.y.sem[m].waiters;
            var k' := Moved(WithWaiters(k, m, if r in w then w else w + [r]), k.y.place[r := InDown(m, cont)],
              k.y.held);
            S.Inv(k'.s) && Formed(k') && DownOnce(k, m, cont) == Sleep(k')
  {
    hide S.Inv, SyncInv, Sleep;
  }

  /** The assignments once the semaphore is free. */
  lemma Taking(k: Kernel, m: Mid, cont: Cont)
    requires KInv(k) && Formed(k) && m in k.y.sem && (cont.ToWait? ==> cont.q in k.y.ioq)
    requires k.y.sem[m].val > 0 && DownOnce(k, m, cont).Next?
    ensures var r := k.s.running;
            && r in k.y.held
            && var k' := Moved(WithVal(k, m, k.y.sem[m].val - 1), k.y.place[r := Outside],
               k.y.held[r := k.y.held[r] + {m}]);
            && S.Inv(k'.s) && Formed(k') && k'.s == k.s && k'.y.ioq == k.y.ioq
            && match cont
               case ToCaller => DownOnce(k, m, cont) == Next(k')
               case ToWait(q, role) =>
                 && Formed(k'.(y := Await(k'.y, r, q, role)))
                 && DownOnce(k, m, cont) == Sleep(k'.(y := Await(k'.y, r, q, role)))
  {
    hide S.Inv, SyncInv, Sleep;
  }

  /** The assignments of sem_up: the thread woken is the first waiter, whose wake-up does not look at semaphores. */
  lemma Releasing(k: Kernel, m: Mid)
    requires KInv(k) && Formed(k) && m in k.y.sem && Up(k, m).Next?
    ensures var r, w := k.s.running, k.y.sem[m].waiters;
            && r in k.y.held
            && var k1 := Moved(k, k.y.place[r := Outside], k.y.held[r := k.y.held[r] - {m}]);
            && (w == [] ==> Up(k, m) == Next(Raised(k1, m)))
            && (w != [] ==>
                  var k2 := WithWaiters(k1, m, w[1..]);
                  && S.Inv(k2.s) && Formed(k2) && Wake(k2, w[0]).Next?
                  && Up(k, m) == Next(Raised(Wake(k2, w[0]).k, m)))
  {
    hide S.Inv, SyncInv, S.Unblock;
  }

  /** A byte is taken, or accepted, before anybody is woken. */
  lemma Transferring(k: Kernel, q: Qid, b: Byte)
    requires KInv(k) && Formed(k) && q in k.y.ioq
    ensures var ring := k.y.ioq[q].ring;
            && ring.tail < |ring.buf| && ring.head < |ring.buf| && k.y.ioq[q].mtx in k.y.sem
            && (!Empty(ring) ==>
                  var k' := WithRing(k, q, Pop(ring));
                  q in k'.y.ioq && S.Inv(k'.s) && Formed(k') && GetTop(k, q) == SignalProducer(k', q))
            && (!Full(ring) ==>
                  var k' := WithRing(k, q, Push(ring, b));
                  q in k'.y.ioq && S.Inv(k'.s) && Formed(k') && PutTop(k, q, b) == SignalConsumer(k', q))
  {
    hide S.Inv, SyncInv, SignalProducer, SignalConsumer;
  }

  lemma Boots(k: Kernel, idle: S.Tid)
    requires k.s == P.Boot(idle) && k.y.place == map[idle := Outside] && k.y.held == map[idle := {}] && Unused(k.y)
    ensures BootState(k, idle)
  {
    hide S.Inv, Unused;
    P.BootInv(idle);
  }

  /** Where the threads are is no part of being unused. */
  lemma UnusedMoved(k: Kernel, p: map<S.Tid, Place>, h: map<S.Tid, set<Mid>>)
    requires Unused(k.y)
    ensures Unused(Moved(k, p, h).y)
  {
  }

  class KernelData {
    const sched: O.Scheduler
    const sems: seq<Semaphore>
    const queues: seq<IoQueue>
    /** The address of each thread's pend_tag, and ELEM2ENTRY's way back. */
    var pendTag: O.Tags
    var pendEntry: O.Entry
    ghost var place: map<S.Tid, Place>
    ghost var held: map<S.Tid, set<Mid>>
    /** The semaphores; the queues with their rings and buffers. */
    ghost const semCells: set<object>
    ghost const queueCells: set<object>

    /** The mutexes and queues of the kernel, before there is any thread. */
    constructor (sched: O.Scheduler, sems: seq<Semaphore>, queues: seq<IoQueue>, ghost semCells: set<object>,
        ghost queueCells: set<object>)
      requires sched.Valid() && sched.tcb == map[]
      requires O.Separate(Waiters(sems), sched.lists) && forall w | w in Waiters(sems) ::
               w !in sched.rq && sched.lists[w] == []
      requires (forall i | 0 <= i < |sems| :: sems[i] in semCells) && Owned(queues, queueCells)
      requires semCells !! queueCells && semCells + queueCells !! sched.Repr()
      requires Apart(queues) && Working(queues, queueCells, |sems|)
      ensures Valid() && this.sched == sched && this.sems == sems && this.queues == queues
      ensures this.semCells == semCells && this.queueCells == queueCells
      ensures pendTag == map[] && pendEntry == map[] && place == map[] && held == map[]
    {
      this.sched, this.sems, this.queues, this.semCells, this.queueCells := sched, sems, queues, semCells, queueCells;
      pendTag, pendEntry, place, held := map[], map[], map[], map[];
    }

    ghost predicate Valid()
      reads this, sched, sched.rqMask.bytes, Lists.Footprint(sched.lists), queueCells
      ensures Valid() ==> sched.Valid() && Mine()
    {
      && sched.Valid() && Linked() && Mine()
      && Cells() !! sched.Repr() && Cells() !! O.TagSet(pendTag)
      && Working(queues, queueCells, |sems|)
    }

    /** The waiter lists are no ready queues, and the pend_tags no ready_tags. */
    ghost predicate Linked()
      reads this, sched
    {
      && Groups(sched.rq, Waiters(sems), sched.lists, sched.entry, sched.readyTag, pendEntry, pendTag)
      && sched.readyTag.Keys <= pendTag.Keys
    }

    ghost predicate Mine() {
      && this !in semCells + queueCells && semCells !! queueCells
      && (forall i | 0 <= i < |sems| :: sems[i] in semCells)
      && Owned(queues, queueCells) && Apart(queues)
    }

    ghost function Cells(): set<object> {
      {this} + semCells + queueCells
    }

    ghost function Queued(): (r: seq<seq<S.Tid>>)
      reads this, sched
      ensures |r| == |sems|
    {
      O.Queues(Waiters(sems), sched.lists, pendEntry)
    }

    ghost function Abs(): Kernel
      requires sched.rqMask.Valid() && Mine()
      reads this, sched, sched.rqMask.bytes, semCells, queueCells
    {
      Kernel(sched.Abs(), Sync(Sems(sems, Queued()), Queues(queues, queueCells), place, held))
    }

    ghost function Repr(): (r: set<object>)
      reads this, sched
      ensures Cells() <= r && sched.Repr() <= r
    {
      Cells() + sched.Repr() + O.TagSet(pendTag)
    }

    // ----- single reads and assignments -----

    lemma Ready(q: Qid)
      requires Valid() && q < |queues|
      ensures queues[q].ring.Valid()
    {
    }

    method HasNoWaiters(m: Mid) returns (r: bool)
      requires Valid() && m < |sems|
      ensures Valid() && Repr() == old(Repr()) && Abs() == old(Abs()) && Queued() == old(Queued())
      ensures r <==> Queued()[m] == []
    {
      hide O.Tagged, O.TagSet, Lists.Holds;
      ListsHold();
      assert Waiters(sems)[m] == sems[m].waiters;
      r := Lists.Empty(sems[m].waiters, sched.lists);
    }

    method IsEmpty(q: Qid) returns (r: bool)
      requires Valid() && q < |queues|
      ensures Valid() && Repr() == old(Repr()) && Abs() == old(Abs())
      ensures r <==> Empty(queues[q].ring.Abs())
    {
      hide O.Tagged, O.Queues, O.Ids, O.Separate, O.TagSet, Lists.Holds, Apart, O.Scheduler.Valid, O.Scheduler.Abs,
           Groups, Sems, Queues, Working, Owned, Fifo;
      Ready(q);
      r := queues[q].ring.IsEmpty();
    }

    method IsFull(q: Qid) returns (r: bool)
      requires Valid() && q < |queues|
      ensures Valid() && Repr() == old(Repr()) && Abs() == old(Abs())
      ensures r <==> Full(queues[q].ring.Abs())
    {
      hide O.Tagged, O.Queues, O.Ids, O.Separate, O.TagSet, Lists.Holds, Apart, O.Scheduler.Valid, O.Scheduler.Abs,
           Groups, Sems, Queues, Working, Owned, Fifo;
      Ready(q);
      r := queues[q].ring.IsFull();
    }

    method SetVal(m: Mid, v: nat)
      requires Valid() && m < |sems|
      modifies sems[m]
      ensures Valid() && Repr() == old(Repr()) && Abs() == WithVal(old(Abs()), m, v)
    {
      hide O.Tagged, O.Queues, O.Ids, O.TagSet, Lists.Holds, Lists.Footprint, O.Separate, Waiters, O.Scheduler.Abs,
           O.Scheduler.Valid, Apart, Owned, Queues, Working;
      ghost var sem := Sems(sems, Queued());
      SemsDistinct(sems, sched.lists);
      sems[m].val := v;
      assert Sems(sems, Queued()) == sem[m := sem[m].(val := v)];
    }

    method Increment(m: Mid)
      requires Valid() && m < |sems|
      modifies sems[m]
      ensures Valid() && Repr() == old(Repr()) && Abs() == Raised(old(Abs()), m)
    {
      hide Valid, Repr, Abs, WithVal, O.Scheduler.Valid, O.Scheduler.Repr;
      SemState(m);
      SetVal(m, sems[m].val + 1);
    }

    method SetConsumer(q: Qid, v: Option<S.Tid>)
      requires Valid() && q < |queues|
      modifies queues[q]
      ensures Valid() && Repr() == old(Repr()) && Abs() == WithConsumer(old(Abs()), q, v)
    {
      hide O.Tagged, O.Queues, O.Ids, O.TagSet, Lists.Holds, O.Separate, Waiters, O.Scheduler.Abs, O.Scheduler.Valid,
           Sems, Apart, Owned, Queues, Working, Groups;
      QueueIsApart(q);
      StoreConsumer(queues, q, v, queueCells, |sems|);
    }

    method SetProducer(q: Qid, v: Option<S.Tid>)
      requires Valid() && q < |queues|
      modifies queues[q]
      ensures Valid() && Repr() == old(Repr()) && Abs() == WithProducer(old(Abs()), q, v)
    {
      hide O.Tagged, O.Queues, O.Ids, O.TagSet, Lists.Holds, O.Separate, Waiters, O.Scheduler.Abs, O.Scheduler.Valid,
           Sems, Apart, Owned, Queues, Working, Groups;
      QueueIsApart(q);
      StoreProducer(queues, q, v, queueCells, |sems|);
    }

    method RingGet(q: Qid) returns (b: Byte)
      requires Valid() && q < |queues| && !Empty(queues[q].ring.Abs())
      modifies queues[q].ring
      ensures Valid() && Repr() == old(Repr())
      ensures var ring := old(queues[q].ring.Abs());
              Fifo(ring) && Abs() == WithRing(old(Abs()), q, Pop(ring)) && |ring.got| < |ring.put|
                && b == ring.put[|ring.got|]
    {
      hide O.Tagged, O.Queues, O.Ids, O.TagSet, Lists.Holds, O.Separate, Waiters, O.Scheduler.Abs, O.Scheduler.Valid,
           Sems, Apart, Owned, Queues, Working, Fifo, Pop;
      QueueIsApart(q);
      b := GetFrom(queues, q, queueCells, |sems|);
    }

    method RingPut(q: Qid, b: Byte)
      requires Valid() && q < |queues| && !Full(queues[q].ring.Abs())
      modifies queues[q].ring, queues[q].ring.buf
      ensures Valid() && Repr() == old(Repr())
      ensures var ring := old(queues[q].ring.Abs()); Fifo(ring) && Abs() == WithRing(old(Abs()), q, Push(ring, b))
    {
      hide O.Tagged, O.Queues, O.Ids, O.TagSet, Lists.Holds, O.Separate, Waiters, O.Scheduler.Abs, O.Scheduler.Valid,
           Sems, Apart, Owned, Queues, Working, Fifo, Push;
      QueueIsApart(q);
      PutInto(queues, q, b, queueCells, |sems|);
    }

    /** The queues are no part of the scheduler. */
    lemma QueueIsApart(q: Qid)
      requires Valid() && q < |queues|
      ensures queues[q] !in sched.Repr() + semCells + {this}
      ensures queues[q].ring !in sched.Repr() + semCells + {this}
              && queues[q].ring.buf !in sched.Repr() + semCells + {this}
    {
    }

    // ----- the waiter lists -----

    lemma ListsHold()
      requires Valid()
      ensures Lists.Holds(sched.lists)
    {
    }

    /** list_push_back of a pend_tag that is in no list. */
    method AppendWaiter(m: Mid, t: S.Tid)
      requires Valid() && m < |sems| && t in pendTag && forall i | 0 <= i < |sems| :: t !in Queued()[i]
      modifies Repr()
      ensures Valid() && Repr() == old(Repr()) && Abs() == WithWaiters(old(Abs()), m, old(Queued())[m] + [t])
    {
      hide O.Tagged, O.Queues, O.Ids, O.Separate, Lists.Holds, Apart, Owned, Queues, Working, Sems, O.TagSet,
           O.Scheduler.Repr, O.Scheduler.Valid, O.Scheduler.Abs;
      ghost var lists := sched.lists;
      assert Waiters(sems)[m] == sems[m].waiters && Queued() == O.Queues(Waiters(sems), lists, pendEntry);
      ListsHold();
      Appended(sched.rq, Waiters(sems), lists, sched.entry, sched.readyTag, pendEntry, pendTag, m, t);
      sched.PushBackElsewhere(sems[m].waiters, pendTag[t]);
      SameCells(Cells(), old(sched.Repr()), sched.Repr(), O.TagSet(pendTag), pendTag[t]);
      SemsQueued(sems, old(Queued()), m, Queued()[m]);
    }

    /** list_pop_front and ELEM2ENTRY. */
    method PopWaiter(m: Mid) returns (t: S.Tid)
      requires Valid() && m < |sems| && Queued()[m] != []
      modifies Repr()
      ensures Valid() && Repr() == old(Repr()) && Abs() == WithWaiters(old(Abs()), m, old(Queued())[m][1..])
      ensures t == old(Queued())[m][0]
    {
      hide O.Tagged, O.Queues, O.Ids, O.Separate, Lists.Holds, Apart, Owned, Queues, Working, Sems, O.TagSet,
           O.Scheduler.Repr, O.Scheduler.Valid, O.Scheduler.Abs;
      ghost var lists := sched.lists;
      assert Waiters(sems)[m] == sems[m].waiters && Queued() == O.Queues(Waiters(sems), lists, pendEntry);
      ListsHold();
      Popped(sched.rq, Waiters(sems), lists, sched.entry, sched.readyTag, pendEntry, pendTag, m);
      var e := sched.PopFrontElsewhere(sems[m].waiters);
      t := pendEntry[e];
      SameCells(Cells(), old(sched.Repr()), sched.Repr(), O.TagSet(pendTag), e);
      SemsQueued(sems, old(Queued()), m, Queued()[m]);
    }

    // ----- the calls into the scheduler -----

    /** thread_block(TASK_BLOCKED) */
    method BlockRunning()
      requires Valid() && S.Inv(Abs().s) && Formed(Abs()) && Sleep(Abs()).Next?
      modifies sched.Repr()
      ensures Valid() && Repr() == old(Repr())
      ensures Sleep(old(Abs())) == Next(Abs())
    {
      hide O.Tagged, O.Queues, O.Ids, O.Separate, O.Others, Lists.Holds, Apart, Owned, Queues, Working, Sems,
           O.TagSet, O.Scheduler.Repr, O.Scheduler.Valid, O.Scheduler.Abs, Groups, S.Inv, S.Block;
      ghost var lists, entry := sched.lists, sched.entry;
      sched.ThreadBlock(S.Blocked);
      SchedLists(sched);
      GroupsKept(sched.rq, Waiters(sems), lists, sched.lists, entry, sched.entry, sched.readyTag, pendEntry, pendTag);
    }

    /** thread_unblock */
    method WakeThread(t: S.Tid)
      requires Valid() && S.Inv(Abs().s) && Formed(Abs()) && Wake(Abs(), t).Next?
      modifies sched.Repr()
      ensures Valid() && Repr() == old(Repr()) && S.Shape(Abs().s)
      ensures Wake(old(Abs()), t) == Next(Abs())
    {
      hide O.Tagged, O.Queues, O.Ids, O.Separate, O.Others, Lists.Holds, Apart, Owned, Queues, Working, Sems,
           O.TagSet, O.Scheduler.Repr, O.Scheduler.Valid, Groups, S.Inv, S.Unblock;
      ghost var lists, entry := sched.lists, sched.entry;
      sched.ThreadUnblock(t);
      SchedLists(sched);
      GroupsKept(sched.rq, Waiters(sems), lists, sched.lists, entry, sched.entry, sched.readyTag, pendEntry, pendTag);
    }

    /** The fields and the value they stand for. */
    lemma SemState(m: Mid)
      requires Valid()
      ensures m in Abs().y.sem <==> m < |sems|
      ensures m < |sems| ==> Abs().y.sem[m].val == sems[m].val && Abs().y.sem[m].waiters == Queued()[m]
      ensures Abs().s.running == sched.runningThread && Abs().s.tcb.Keys <= pendTag.Keys
    {
      hide O.Tagged, O.Queues, O.TagSet, Lists.Holds, Apart, Working, Groups;
    }

    lemma QueueState(q: Qid)
      requires Valid()
      ensures q in Abs().y.ioq <==> q < |queues|
      ensures q < |queues| ==>
                Abs().y.ioq[q] == Ioq(queues[q].mtx, queues[q].producer, queues[q].consumer, queues[q].ring.Abs())
      ensures Abs().s.running == sched.runningThread
    {
      hide O.Tagged, O.Queues, O.TagSet, Lists.Holds, Apart, Working, Groups;
    }

    // ----- sync.c and ioqueue.c -----

    /** Book-keeping only: where the running thread is and what it holds. */
    ghost method Move(p: map<S.Tid, Place>, h: map<S.Tid, set<Mid>>)
      requires Valid()
      modifies this`place, this`held
      ensures Valid() && Repr() == old(Repr()) && Abs() == Moved(old(Abs()), p, h) && Queued() == old(Queued())
    {
      hide O.Tagged, O.Queues, O.Ids, O.Separate, O.Others, Lists.Holds, Apart, Owned, Queues, Working, Sems,
           O.Scheduler.Abs;
      place, held := p, h;
    }

    method IsWaiting(m: Mid, r: S.Tid) returns (found: bool)
      requires Valid() && m < |sems| && r in pendTag
      ensures Valid() && Repr() == old(Repr()) && Abs() == old(Abs()) && Queued() == old(Queued())
      ensures found <==> r in Queued()[m]
    {
      hide O.Tagged, O.Queues, O.Ids, O.TagSet, Lists.Holds;
      ListsHold();
      Found(Waiters(sems), sched.lists, pendEntry, pendTag, m, r);
      found := Lists.Find(sems[m].waiters, pendTag[r], sched.lists);
    }

    /** The waiter list gets the thread at its back, unless list_elem_find finds it there. */
    method QueueUp(r: S.Tid, m: Mid)
      requires Valid() && m < |sems| && r in pendTag && forall i | 0 <= i < |sems| && i != m :: r !in Queued()[i]
      modifies Repr()
      ensures Valid() && Repr() == old(Repr())
      ensures var w := old(Queued())[m]; Abs() == WithWaiters(old(Abs()), m, if r in w then w else w + [r])
    {
      hide Valid, Repr, Queued;
      SemsQueued(sems, Queued(), m, Queued()[m]);
      var found := IsWaiting(m, r);
      if !found {
        AppendWaiter(m, r);
      }
    }

    lemma Unwaiting(k: Kernel)
      requires Valid() && k == Abs() && KInv(k)
      ensures sched.runningThread in pendTag && forall i | 0 <= i < |sems| :: sched.runningThread !in Queued()[i]
    {
      hide S.Inv, SyncInv, Valid, Abs, Queued;
      RunningWaitsNowhere(k);
      SemState(0);
      forall i | 0 <= i < |sems| ensures sched.runningThread !in Queued()[i] {
        SemState(i);
      }
    }

    /** One pass of sem_down's loop, and what its caller does next up to its own return or block. */
    method SemDown(m: Mid, cont: Cont)
      requires Valid() && KInv(Abs()) && Formed(Abs()) && m in Abs().y.sem && (cont.ToWait? ==> cont.q in Abs().y.ioq)
      requires DownOnce(Abs(), m, cont).Next?
      modifies Repr()
      ensures Valid() && Repr() == old(Repr())
      ensures DownOnce(old(Abs()), m, cont) == Next(Abs())
    {
      hide S.Inv, SyncInv, KInv, Formed, Sleep, DownOnce, WithWaiters, Moved, Valid, Repr, Abs, Queued,
           O.Scheduler.Valid, O.Scheduler.Repr;
      ghost var k := Abs();
      SemState(m);
      var r := sched.runningThread;
      if sems[m].val == 0 {
        Queuing(k, m, cont);
        Unwaiting(k);
        QueueUp(r, m);
        Move(k.y.place[r := InDown(m, cont)], k.y.held);
        BlockRunning();
      } else {
        PassDown(m, cont);
      }
    }

    /** sem_down past its loop. */
    method PassDown(m: Mid, cont: Cont)
      requires Valid() && KInv(Abs()) && Formed(Abs()) && m in Abs().y.sem && (cont.ToWait? ==> cont.q in Abs().y.ioq)
      requires Abs().y.sem[m].val > 0 && DownOnce(Abs(), m, cont).Next?
      modifies Repr()
      ensures Valid() && Repr() == old(Repr())
      ensures DownOnce(old(Abs()), m, cont) == Next(Abs())
    {
      hide S.Inv, SyncInv, KInv, Formed, Sleep, DownOnce, WithVal, Moved, Valid, Repr, Abs, Queued, O.Scheduler.Valid,
           O.Scheduler.Repr;
      ghost var k := Abs();
      SemState(m);
      var r := sched.runningThread;
      Taking(k, m, cont);
      TakeUnit(r, m);
      if cont.ToWait? {
        IoqWait(cont.q, cont.role);
      }
    }

    method TakeUnit(r: S.Tid, m: Mid)
      requires Valid() && m in Abs().y.sem && Abs().y.sem[m].val > 0 && r in Abs().y.held
      modifies Repr()
      ensures Valid() && Repr() == old(Repr())
      ensures var k := old(Abs());
              Abs() == Moved(WithVal(k, m, k.y.sem[m].val - 1), k.y.place[r := Outside],
                k.y.held[r := k.y.held[r] + {m}])
    {
      hide Valid, Repr, Abs, WithVal, Moved, Queued, O.Scheduler.Valid, O.Scheduler.Repr;
      ghost var k := Abs();
      SemState(m);
      SetVal(m, sems[m].val - 1);
      Move(k.y.place[r := Outside], k.y.held[r := k.y.held[r] + {m}]);
    }

    method IoqWait(q: Qid, role: Role)
      requires Valid() && S.Inv(Abs().s) && Formed(Abs()) && q in Abs().y.ioq
      requires Formed(Abs().(y := Await(Abs().y, Abs().s.running, q, role)))
      requires Sleep(Abs().(y := Await(Abs().y, Abs().s.running, q, role))).Next?
      modifies Repr()
      ensures Valid() && Repr() == old(Repr())
      ensures Sleep(old(Abs()).(y := Await(old(Abs()).y, old(Abs()).s.running, q, role))) == Next(Abs())
    {
      hide S.Inv, Sleep, Valid, Repr, Abs, Queued, O.Scheduler.Valid, O.Scheduler.Repr;
      ghost var k := Abs();
      QueueState(q);
      var r := sched.runningThread;
      if role.Consumer? {
        SetConsumer(q, Some(r));
      } else {
        SetProducer(q, Some(r));
      }
      Move(k.y.place[r := InWait(q, role)], k.y.held);
      BlockRunning();
    }

    /** The branch of sem_up for a list that is not empty. */
    method WakeFirst(m: Mid)
      requires Valid() && m < |sems|
      requires Queued()[m] != [] ==>
                 var w, k := Queued()[m], WithWaiters(Abs(), m, Queued()[m][1..]);
                 S.Inv(k.s) && Formed(k) && Wake(k, w[0]).Next?
      modifies Repr()
      ensures Valid() && Repr() == old(Repr())
      ensures var w := old(Queued())[m];
              if w == [] then Abs() == old(Abs()) else Next(Abs()) == Wake(WithWaiters(old(Abs()), m, w[1..]), w[0])
    {
      hide S.Inv, Formed, Wake, WithWaiters, Valid, Repr, Abs, Queued, O.Scheduler.Valid, O.Scheduler.Repr;
      var empty := HasNoWaiters(m);
      if !empty {
        var t := PopWaiter(m);
        WakeThread(t);
      }
    }

    /** sem_up; its assertions pass when the outcome is a state. */
    method SemUp(m: Mid)
      requires Valid() && KInv(Abs()) && Formed(Abs()) && m in Abs().y.sem && Up(Abs(), m).Next?
      modifies Repr()
      ensures Valid() && Repr() == old(Repr())
      ensures Up(old(Abs()), m) == Next(Abs())
    {
      hide S.Inv, SyncInv, KInv, Formed, Wake, Up, WithWaiters, Raised, Valid, Repr, Abs, Queued, O.Scheduler.Valid,
           O.Scheduler.Repr;
      ghost var k := Abs();
      SemState(m);
      Releasing(k, m);
      var r := sched.runningThread;
      Move(k.y.place[r := Outside], k.y.held[r := k.y.held[r] - {m}]);
      WakeFirst(m);
      Increment(m);
    }

    /** ioq_signal(&q->producer), if there is one. */
    method WakeProducer(q: Qid)
      requires Valid() && S.Inv(Abs().s) && Formed(Abs()) && q in Abs().y.ioq && SignalProducer(Abs(), q).Next?
      modifies Repr()
      ensures Valid() && Repr() == old(Repr())
      ensures SignalProducer(old(Abs()), q) == Next(Abs())
    {
      hide S.Inv, Wake, Valid, Repr, Abs, Queued, O.Scheduler.Valid, O.Scheduler.Repr;
      QueueState(q);
      if queues[q].producer.Some? {
        WakeThread(queues[q].producer.value);
        SetProducer(q, None);
      }
    }

    /** ioq_signal(&q->consumer), if there is one. */
    method WakeConsumer(q: Qid)
      requires Valid() && S.Inv(Abs().s) && Formed(Abs()) && q in Abs().y.ioq && SignalConsumer(Abs(), q).Next?
      modifies Repr()
      ensures Valid() && Repr() == old(Repr())
      ensures SignalConsumer(old(Abs()), q) == Next(Abs())
    {
      hide S.Inv, Wake, Valid, Repr, Abs, Queued, O.Scheduler.Valid, O.Scheduler.Repr;
      QueueState(q);
      if queues[q].consumer.Some? {
        WakeThread(queues[q].consumer.value);
        SetConsumer(q, None);
      }
    }

    /** ioq_getchar from the test of its loop: a byte, or none yet because the thread now waits. */
    method IoqGetchar(q: Qid) returns (byte: Option<Byte>)
      requires Valid() && KInv(Abs()) && Formed(Abs()) && q in Abs().y.ioq && GetTop(Abs(), q).Next?
      modifies Repr()
      ensures Valid() && Repr() == old(Repr())
      ensures GetTop(old(Abs()), q) == Next(Abs())
      ensures var ring := old(Abs()).y.ioq[q].ring;
              && (byte.Some? <==> !Empty(ring))
              && (byte.Some? ==> Fifo(ring) && |ring.got| < |ring.put| && byte.value == ring.put[|ring.got|])
    {
      hide S.Inv, SyncInv, Formed, SignalProducer, DownOnce, WithRing, Pop, Fifo, Valid, Repr, Abs, Queued,
           O.Scheduler.Valid, O.Scheduler.Repr;
      QueueState(q);
      Transferring(Abs(), q, 0);
      var empty := IsEmpty(q);
      if empty {
        byte := None;
        SemDown(queues[q].mtx, ToWait(q, Consumer));
      } else {
        var b := RingGet(q);
        byte := Some(b);
        WakeProducer(q);
      }
    }

    /** ioq_putchar from the test of its loop. */
    method IoqPutchar(q: Qid, byte: Byte) returns (done: bool)
      requires Valid() && KInv(Abs()) && Formed(Abs()) && q in Abs().y.ioq && PutTop(Abs(), q, byte).Next?
      modifies Repr()
      ensures Valid() && Repr() == old(Repr())
      ensures PutTop(old(Abs()), q, byte) == Next(Abs())
      ensures done <==> !Full(old(Abs()).y.ioq[q].ring)
    {
      hide S.Inv, SyncInv, Formed, SignalConsumer, DownOnce, WithRing, Push, Fifo, Valid, Repr, Abs, Queued,
           O.Scheduler.Valid, O.Scheduler.Repr;
      QueueState(q);
      Transferring(Abs(), q, byte);
      var full := IsFull(q);
      if full {
        done := false;
        SemDown(queues[q].mtx, ToWait(q, Producer(byte)));
      } else {
        RingPut(q, byte);
        done := true;
        WakeConsumer(q);
      }
    }

    // ----- threads come into being -----

    ghost predicate NewReadyTag(rTag: Lists.ListElem)
      reads this, sched
    {
      && rTag !in Lists.Footprint(sched.lists) && rTag !in sched.entry
      && rTag !in O.TagSet(pendTag) && rTag !in Cells()
    }

    /** The control block of a thread to be has a pend_tag that is in no list. */
    method Enroll(t: S.Tid, pTag: Lists.ListElem)
      requires Valid() && t !in pendTag && pTag !in pendEntry
      requires pTag !in Lists.Footprint(sched.lists) && pTag !in O.TagSet(sched.readyTag) && pTag !in Cells()
      modifies this`pendTag, this`pendEntry
      ensures Valid() && Repr() == old(Repr()) + {pTag} && Abs() == old(Abs())
      ensures pendTag == old(pendTag)[t := pTag]
    {
      hide O.Tagged, O.Queues, O.Ids, O.Separate, Lists.Holds, Apart, Owned, O.TagSet, Groups, O.Scheduler.Valid,
           O.Scheduler.Abs, Queues, Working, Sems;
      GroupsEnrolled(sched.rq, Waiters(sems), sched.lists, sched.entry, sched.readyTag, pendEntry, pendTag, t, pTag);
      pendTag, pendEntry := pendTag[t := pTag], pendEntry[pTag := t];
    }

    /** idle_thread_make: from no thread at all to the start of the runs. */
    method IdleThreadMake(idle: S.Tid, rTag: Lists.ListElem)
      requires Valid() && idle in pendTag && place == map[] && held == map[] && Unused(Abs().y)
      requires sched.tcb == map[] && !sched.needSchedule && Abs().s.mask == {}
      requires forall p | 0 <= p < S.PRIO_NUM :: Abs().s.rq[p] == []
      requires NewReadyTag(rTag)
      modifies Repr(), rTag
      ensures Valid() && Repr() == old(Repr()) + {rTag}
      ensures BootState(Abs(), idle) && Abs().s == P.Boot(idle)
    {
      hide O.Tagged, O.Queues, O.Ids, O.Separate, Lists.Holds, Apart, Owned, O.TagSet, S.Inv, P.Boot, Unused;
      BootOnly(idle, rTag);
      UnusedMoved(Abs(), map[idle := Outside], map[idle := {}]);
      Move(map[idle := Outside], map[idle := {}]);
      Boots(Abs(), idle);
    }

    method BootOnly(idle: S.Tid, rTag: Lists.ListElem)
      requires Valid() && idle in pendTag
      requires sched.tcb == map[] && !sched.needSchedule && Abs().s.mask == {}
      requires forall p | 0 <= p < S.PRIO_NUM :: Abs().s.rq[p] == []
      requires NewReadyTag(rTag)
      modifies sched.Repr(), rTag
      ensures Valid() && Repr() == old(Repr()) + {rTag}
      ensures Abs() == old(Abs()).(s := P.Boot(idle))
    {
      hide O.Tagged, O.Queues, O.Ids, O.Separate, O.Others, Lists.Holds, Apart, Owned, Queues, Working, Sems,
           O.TagSet, P.Boot, Groups;
      ghost var lists, entry, tags := sched.lists, sched.entry, sched.readyTag;
      sched.IdleThreadMake(idle, rTag);
      SchedLists(sched);
      GroupsGrown(sched.rq, Waiters(sems), lists, sched.lists, entry, sched.entry, tags, pendEntry, pendTag, idle,
        rTag);
    }

    /** thread_run, for a control block with its tags. */
    method ThreadRun(t: S.Tid, prio: nat, rTag: Lists.ListElem)
      requires Valid() && S.Inv(Abs().s) && t !in sched.tcb && t in pendTag && prio < S.PRIO_NUM
      requires NewReadyTag(rTag)
      modifies Repr(), rTag
      ensures Valid() && Repr() == old(Repr()) + {rTag}
      ensures Abs() == Kernel(S.Create(old(Abs()).s, t, prio), AddThread(old(Abs()).y, t))
    {
      hide O.Tagged, O.Queues, O.Ids, O.Separate, Lists.Holds, Apart, Owned, O.TagSet, S.Inv, S.Create;
      RunOnly(t, prio, rTag);
      Move(place[t := Outside], held[t := {}]);
    }

    method RunOnly(t: S.Tid, prio: nat, rTag: Lists.ListElem)
      requires Valid() && S.Inv(Abs().s) && t !in sched.tcb && t in pendTag && prio < S.PRIO_NUM
      requires NewReadyTag(rTag)
      modifies sched.Repr(), rTag
      ensures Valid() && Repr() == old(Repr()) + {rTag}
      ensures Abs() == old(Abs()).(s := S.Create(old(Abs()).s, t, prio))
    {
      hide O.Tagged, O.Queues, O.Ids, O.Separate, O.Others, Lists.Holds, Apart, Owned, Queues, Working, Sems,
           O.TagSet, S.Inv, S.Create, Groups, O.Scheduler.Abs;
      ghost var lists, entry, tags := sched.lists, sched.entry, sched.readyTag;
      sched.ThreadRun(t, prio, rTag);
      SchedLists(sched);
      GroupsGrown(sched.rq, Waiters(sems), lists, sched.lists, entry, sched.entry, tags, pendEntry, pendTag, t, rTag);
    }
  }
}

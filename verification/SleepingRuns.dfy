/** Runs from the kernel's start in which the I/O queue leaves threads asleep: a reader beside unread bytes, a writer
    beside free room, and a writer and a reader for good. */
module SleepingRuns {
  import opened Options
  import opened Scheduling
  import opened RingBuffers
  import opened Synchronisation
  import opened KernelMachine
  import opened Stranding
  import opened Turns
  import D = Deadlock

  /** The state at the end of a run so far. Queue 0 uses mutex 0; thread 0 is the idle thread. */
  ghost predicate At(k: Kernel, sem: Sem, i: Ioq, place: map<Tid, Place>, asleep: set<Tid>) {
    && KInv(k) && k.s.tcb.Keys == {0, 1, 2, 3} && BlockedSet(k.s) == asleep
    && k.y.sem == map[0 := sem] && k.y.ioq == map[0 := i] && i.mtx == 0 && k.y.place == place
    && 0 in place && place[0].Outside? && 0 !in asleep
  }

  function Where(p1: Place, p2: Place, p3: Place): map<Tid, Place> {
    map[0 := Outside, 1 := p1, 2 := p2, 3 := p3]
  }

  function NoBytes(): Ring {
    Ring(seq(BUF_SIZE, i => 0), 0, 0, [], [])
  }

  /** Three threads beside the idle one. */
  lemma Crew() returns (run: seq<Action>, k: Kernel)
    ensures Reaches(Start(0), run, k) && Calls(run) == [Spawn(1, 31), Spawn(2, 31), Spawn(3, 31)]
    ensures At(k, Sem(1, []), Ioq(0, None, None, NoBytes()), Where(Outside, Outside, Outside), {})
  {
    hide KInv, Reaches, BlockedSet, Step;
    Idle();
    run, k := Spawned(Start(0), [], Start(0), 1, 31);
    run, k := Spawned(Start(0), run, k, 2, 31);
    run, k := Spawned(Start(0), run, k, 3, 31);
  }

  lemma Idle()
    ensures KInv(Start(0)) && Reaches(Start(0), [], Start(0)) && BlockedSet(Start(0).s) == {}
    ensures Start(0).s.running == 0 && Start(0).s.tcb.Keys == {0} && Start(0).y.place == map[0 := Outside]
    ensures Start(0).y.sem == map[0 := Sem(1, [])] && Start(0).y.ioq == map[0 := Ioq(0, None, None, NoBytes())]
  {
    hide Inv, KInv;
    StartBoots(0);
    BootKeeps(Start(0), 0);
  }

  // ----- one call each -----

  lemma NotAlone(k: Kernel, sem: Sem, i: Ioq, place: map<Tid, Place>, asleep: set<Tid>)
    requires At(k, sem, i, place, asleep) && k.s.running != 0
    ensures !OthersBlocked(k) && Formed(k)
  {
  }

  /** The call, or the rest of it, that puts its thread in a slot: the mutex is free. */
  lemma Sleeps(k0: Kernel, run: seq<Action>, k: Kernel, sem: Sem, i: Ioq, place: map<Tid, Place>, asleep: set<Tid>,
               a: Action, role: Role) returns (run': seq<Action>, k': Kernel)
    requires Reaches(k0, run, k) && At(k, sem, i, place, asleep) && k.s.running != 0 && sem.val == 1
    requires k.s.running in place && Waits(place[k.s.running], i.ring, a, role)
    ensures Reaches(k0, run', k') && Calls(run') == Calls(run) + [a]
    ensures Formed(k) && Enabled(k, a) && Step(k, a) == Next(k')
    ensures var t := k.s.running;
            At(k', Sem(0, sem.waiters), InSlot(i, role, t), place[t := InWait(0, role)], asleep + {t})
  {
    hide KInv, Reaches, Calls, BlockedSet, DownOnce, OthersBlocked;
    NotAlone(k, sem, i, place, asleep);
    Locking(k);
    TakesSlot(k, 0, role);
    run' := Extend(k0, run, k, a);
    k' := Step(k, a).k;
  }

  /** The same when the mutex is taken. */
  lemma Lines(k0: Kernel, run: seq<Action>, k: Kernel, sem: Sem, i: Ioq, place: map<Tid, Place>, asleep: set<Tid>,
              a: Action, role: Role) returns (run': seq<Action>, k': Kernel)
    requires Reaches(k0, run, k) && At(k, sem, i, place, asleep) && k.s.running != 0 && sem.val == 0
    requires k.s.running in place && Waits(place[k.s.running], i.ring, a, role)
    ensures Reaches(k0, run', k') && Calls(run') == Calls(run) + [a]
    ensures var t := k.s.running;
            At(k', Sem(0, sem.waiters + [t]), i, place[t := InDown(0, ToWait(0, role))], asleep + {t})
  {
    hide KInv, Reaches, Calls, BlockedSet, DownOnce, OthersBlocked;
    NotAlone(k, sem, i, place, asleep);
    Locking(k);
    QueuesUp(k, 0, role);
    run' := Extend(k0, run, k, a);
    k' := Step(k, a).k;
  }

  /** The call a of a thread at p goes to sem_down in order to wait in this role. */
  ghost predicate Waits(p: Place, ring: Ring, a: Action, role: Role) {
    || (a == Get(0) && p.Outside? && role == Consumer && Empty(ring))
    || (a.Put? && a.q == 0 && p.Outside? && role == Producer(a.byte) && Full(ring))
    || (a == Resume && p == InDown(0, ToWait(0, role)))
  }

  lemma Locking(k: Kernel)
    requires KInv(k)
    ensures k.s.running in k.y.place && k.s.running in k.y.held && k.s.running !in BlockedSet(k.s)
  {
    hide QueuedBut, PlaceInv, Rings, Exclusive, WaitersExact, NoLostWakeup;
  }

  /** A byte is read; a writer in the slot wakes up. */
  lemma Reads(k0: Kernel, run: seq<Action>, k: Kernel, sem: Sem, i: Ioq, place: map<Tid, Place>, asleep: set<Tid>)
    returns (run': seq<Action>, k': Kernel)
    requires Reaches(k0, run, k) && At(k, sem, i, place, asleep)
    requires k.s.running in place && place[k.s.running].Outside? && !Empty(i.ring)
    ensures Reaches(k0, run', k') && Calls(run') == Calls(run) + [Get(0)] && k'.s.running == k.s.running && Fifo(i.ring)
    ensures At(k', sem, i.(ring := Pop(i.ring), producer := None), place,
               if i.producer.Some? then asleep - {i.producer.value} else asleep)
  {
    hide KInv, Reaches, Calls, BlockedSet, GetTop, Fifo;
    TakesByte(k, 0);
    Ready(k);
    run' := Extend(k0, run, k, Get(0));
    k' := Step(k, Get(0)).k;
  }

  /** A byte is written; a reader in the slot wakes up. */
  lemma Writes(k0: Kernel, run: seq<Action>, k: Kernel, sem: Sem, i: Ioq, place: map<Tid, Place>, asleep: set<Tid>,
      b: Byte)
    returns (run': seq<Action>, k': Kernel)
    requires Reaches(k0, run, k) && At(k, sem, i, place, asleep)
    requires k.s.running in place && place[k.s.running].Outside? && !Full(i.ring)
    ensures Reaches(k0, run', k') && Calls(run') == Calls(run) + [Put(0, b)] && k'.s.running == k.s.running
            && Fifo(i.ring)
    ensures At(k', sem, i.(ring := Push(i.ring, b), consumer := None), place,
               if i.consumer.Some? then asleep - {i.consumer.value} else asleep)
  {
    hide KInv, Reaches, Calls, BlockedSet, PutTop, Fifo;
    StoresByte(k, 0, b);
    Ready(k);
    run' := Extend(k0, run, k, Put(0, b));
    k' := Step(k, Put(0, b)).k;
  }

  lemma Ready(k: Kernel)
    requires KInv(k)
    ensures Formed(k)
  {
    InvFormed(k);
  }

  /** Back from the slot with something to do: the mutex is given back, its first waiter woken, and the byte moved. */
  lemma Returns(k0: Kernel, run: seq<Action>, k: Kernel, sem: Sem, i: Ioq, place: map<Tid, Place>, asleep: set<Tid>)
    returns (run': seq<Action>, k': Kernel)
    requires Reaches(k0, run, k) && At(k, sem, i, place, asleep)
    requires k.s.running in place && place[k.s.running].InWait? && place[k.s.running].q == 0
    requires if place[k.s.running].role.Consumer? then !Empty(i.ring) else !Full(i.ring)
    ensures Reaches(k0, run', k') && Calls(run') == Calls(run) + [Resume] && k'.s.running == k.s.running && Fifo(i.ring)
    ensures var w, role := sem.waiters, place[k.s.running].role;
            && i.consumer.None? && i.producer.None?
            && At(k', Sem(1, if w == [] then [] else w[1..]),
                  i.(ring := if role.Consumer? then Pop(i.ring) else Push(i.ring, role.byte)),
                  place[k.s.running := Outside], if w == [] then asleep else asleep - {w[0]})
  {
    hide KInv, Reaches, Calls, BlockedSet, Up, GetTop, PutTop, Fifo;
    GivesBack(k, 0);
    var k1, role := Up(k, 0).k, place[k.s.running].role;
    if role.Consumer? {
      TakesByte(k1, 0);
    } else {
      StoresByte(k1, 0, role.byte);
    }
    run' := Extend(k0, run, k, Resume);
    k' := Step(k, Resume).k;
  }

  /** The running thread writes until the buffer is full. */
  lemma {:induction false} Fills(k0: Kernel, run: seq<Action>, k: Kernel, sem: Sem, i: Ioq, place: map<Tid, Place>,
                                 asleep: set<Tid>, b: Byte) returns (run': seq<Action>, k': Kernel, full: Ring)
    requires Reaches(k0, run, k) && At(k, sem, i, place, asleep) && i.consumer.None? && Fifo(i.ring)
    requires k.s.running in place && place[k.s.running].Outside?
    ensures Reaches(k0, run', k') && k'.s.running == k.s.running
    ensures At(k', sem, i.(ring := full), place, asleep) && Fifo(full) && Full(full)
    decreases BUF_SIZE - Pending(i.ring)
  {
    hide KInv, Reaches, Calls, At, Push, Pending, Indexed;
    Room(i.ring, b);
    if Full(i.ring) {
      assert i.(ring := i.ring) == i;
      return run, k, i.ring;
    }
    run', k' := Writes(k0, run, k, sem, i, place, asleep, b);
    assert i.(ring := Push(i.ring, b), consumer := None) == i.(ring := Push(i.ring, b));
    run', k', full := Fills(k0, run', k', sem, i.(ring := Push(i.ring, b)), place, asleep, b);
  }

  lemma Room(q: Ring, b: Byte)
    requires Fifo(q)
    ensures Pending(q) < BUF_SIZE && q.head < |q.buf| && q.tail < |q.buf|
    ensures !Full(q) ==> Fifo(Push(q, b)) && Pending(Push(q, b)) == Pending(q) + 1
    ensures !Empty(q) ==> Fifo(Pop(q)) && Pending(Pop(q)) == Pending(q) - 1
  {
    Capacity(q);
    if !Full(q) {
      PushKeeps(q, b);
    }
    if !Empty(q) {
      PopKeeps(q);
    }
  }

  /** The running thread reads until the buffer is empty. */
  lemma {:induction false} Drains(k0: Kernel, run: seq<Action>, k: Kernel, sem: Sem, i: Ioq, place: map<Tid, Place>,
                                  asleep: set<Tid>) returns (run': seq<Action>, k': Kernel, empty: Ring)
    requires Reaches(k0, run, k) && At(k, sem, i, place, asleep) && i.producer.None? && Fifo(i.ring)
    requires k.s.running in place && place[k.s.running].Outside?
    ensures Reaches(k0, run', k') && k'.s.running == k.s.running
    ensures At(k', sem, i.(ring := empty), place, asleep) && Fifo(empty) && Empty(empty)
    decreases Pending(i.ring)
  {
    hide KInv, Reaches, Calls, At, Pop, Pending, Indexed;
    Room(i.ring, 0);
    if Empty(i.ring) {
      assert i.(ring := i.ring) == i;
      return run, k, i.ring;
    }
    run', k' := Reads(k0, run, k, sem, i, place, asleep);
    assert i.(ring := Pop(i.ring), producer := None) == i.(ring := Pop(i.ring));
    run', k', empty := Drains(k0, run', k', sem, i.(ring := Pop(i.ring)), place, asleep);
  }

  /** t runs next, if no other thread that is awake is in a wait. */
  lemma Turned(k0: Kernel, run: seq<Action>, k: Kernel, sem: Sem, i: Ioq, place: map<Tid, Place>, asleep: set<Tid>,
      t: Tid)
    returns (run': seq<Action>, k': Kernel)
    requires Reaches(k0, run, k) && At(k, sem, i, place, asleep) && t in {1, 2, 3} && t !in asleep
    requires forall u | u in place && u !in asleep && u != t :: place[u].Outside?
    ensures Reaches(k0, run', k') && Calls(run') == Calls(run)
    ensures At(k', sem, i, place, asleep) && k'.s.running == t
  {
    hide KInv, Reaches, Calls, BlockedSet;
    run', k' := LetRun(k0, run, k, t);
  }

  lemma Placed(p1: Place, p2: Place, p3: Place, p: Place)
    ensures Where(p1, p2, p3)[1 := p] == Where(p, p2, p3)
    ensures Where(p1, p2, p3)[2 := p] == Where(p1, p, p3)
  {
    var w := Where(p1, p2, p3);
    assert w.Keys == {0, 1, 2, 3} && w[0] == Outside && w[1] == p1 && w[2] == p2 && w[3] == p3;
  }

  // ----- a reader beside unread bytes -----

  lemma ReadersWait(run: seq<Action>, k: Kernel) returns (run': seq<Action>, k': Kernel)
    requires Reaches(Start(0), run, k)
    requires At(k, Sem(1, []), Ioq(0, None, None, NoBytes()), Where(Outside, Outside, Outside), {})
    ensures Reaches(Start(0), run', k') && Calls(run') == Calls(run) + [Get(0), Get(0)]
    ensures At(k', Sem(0, [2]), Ioq(0, None, Some(1), NoBytes()),
               Where(InWait(0, Consumer), InDown(0, ToWait(0, Consumer)), Outside), {1, 2})
  {
    hide Reaches, Calls, NoBytes, At;
    var z, i := Start(0), Ioq(0, None, None, NoBytes());
    var out, slot, line := Outside, InWait(0, Consumer), InDown(0, ToWait(0, Consumer));
    NothingYet();
    Sets();
    Placed(out, out, out, slot);
    Placed(slot, out, out, line);
    run', k' := Turned(z, run, k, Sem(1, []), i, Where(out, out, out), {}, 1);
    run', k' := Sleeps(z, run', k', Sem(1, []), i, Where(out, out, out), {}, Get(0), Consumer);
    i := i.(consumer := Some(1));
    run', k' := Turned(z, run', k', Sem(0, []), i, Where(slot, out, out), {1}, 2);
    run', k' := Lines(z, run', k', Sem(0, []), i, Where(slot, out, out), {1}, Get(0), Consumer);
    assert Calls(run') == Calls(run) + [Get(0)] + [Get(0)];
  }

  lemma Sets()
    ensures {} + {1} == {1} && {} + {2} == {2} && {1} + {2} == {1, 2} && {1, 2} - {1} == {2} && {2} - {2} == {}
            && {1} - {1} == {}
    ensures [] + [2] == [2] && [2][1..] == []
  {
  }

  /** What the predicate says of the state. */
  lemma Seen(k: Kernel, sem: Sem, i: Ioq, place: map<Tid, Place>, asleep: set<Tid>)
    requires At(k, sem, i, place, asleep)
    ensures k.y.sem == map[0 := sem] && k.y.ioq == map[0 := i] && k.y.place == place && BlockedSet(k.s) == asleep
    ensures KInv(k)
  {
  }

  lemma NothingYet()
    ensures Empty(NoBytes()) && Fifo(NoBytes())
  {
  }

  lemma Bytes(b: Byte, c: Byte)
    ensures var r := NoBytes(); !Full(r) && r.head < |r.buf|
    ensures var r := Push(NoBytes(), b); !Full(r) && r.head < |r.buf|
    ensures var r := Push(Push(NoBytes(), b), c);
            && !Empty(r) && r.tail < |r.buf| && !Empty(Pop(r)) && Pop(r).put == [b, c] && Pop(r).got == [b]
  {
    assert [] + [b] + [c] == [b, c] && [] + [b] == [b];
  }

  lemma BytesCome(run: seq<Action>, k: Kernel, b: Byte, c: Byte) returns (run': seq<Action>, k': Kernel)
    requires Reaches(Start(0), run, k)
    requires At(k, Sem(0, [2]), Ioq(0, None, Some(1), NoBytes()),
                Where(InWait(0, Consumer), InDown(0, ToWait(0, Consumer)), Outside), {1, 2})
    ensures NoBytes().head < |NoBytes().buf| && Push(NoBytes(), b).head < |Push(NoBytes(), b).buf|
    ensures var r := Push(Push(NoBytes(), b), c); r.tail < |r.buf|
    ensures Reaches(Start(0), run', k') && Calls(run') == Calls(run) + [Put(0, b), Put(0, c), Resume]
    ensures At(k', Sem(1, []), Ioq(0, None, None, Pop(Push(Push(NoBytes(), b), c))),
               Where(Outside, InDown(0, ToWait(0, Consumer)), Outside), {})
  {
    hide Reaches, Calls, Push, Pop, Full, Empty, NoBytes, At;
    var z, i := Start(0), Ioq(0, None, Some(1), NoBytes());
    var out, slot, line := Outside, InWait(0, Consumer), InDown(0, ToWait(0, Consumer));
    Bytes(b, c);
    Sets();
    Placed(slot, line, out, out);
    run', k' := Turned(z, run, k, Sem(0, [2]), i, Where(slot, line, out), {1, 2}, 3);
    run', k' := Writes(z, run', k', Sem(0, [2]), i, Where(slot, line, out), {1, 2}, b);
    i := Ioq(0, None, None, Push(NoBytes(), b));
    run', k' := Writes(z, run', k', Sem(0, [2]), i, Where(slot, line, out), {2}, c);
    i := Ioq(0, None, None, Push(Push(NoBytes(), b), c));
    run', k' := Turned(z, run', k', Sem(0, [2]), i, Where(slot, line, out), {2}, 1);
    run', k' := Returns(z, run', k', Sem(0, [2]), i, Where(slot, line, out), {2});
    assert Calls(run') == Calls(run) + [Put(0, b)] + [Put(0, c)] + [Resume];
  }

  lemma LateReader(b: Byte, c: Byte) returns (run: seq<Action>, k: Kernel)
    ensures NoBytes().head < |NoBytes().buf| && Push(NoBytes(), b).head < |Push(NoBytes(), b).buf|
    ensures var r := Push(Push(NoBytes(), b), c); r.tail < |r.buf|
    ensures Reaches(Start(0), run, k) && k.s.running == 2
    ensures Calls(run) == [Spawn(1, 31), Spawn(2, 31), Spawn(3, 31), Get(0), Get(0), Put(0, b), Put(0, c), Resume]
    ensures At(k, Sem(1, []), Ioq(0, None, None, Pop(Push(Push(NoBytes(), b), c))),
               Where(Outside, InDown(0, ToWait(0, Consumer)), Outside), {})
  {
    hide Reaches, Calls, Push, Pop, NoBytes, At;
    Bytes(b, c);
    run, k := Crew();
    run, k := ReadersWait(run, k);
    run, k := BytesCome(run, k, b, c);
    var i := Ioq(0, None, None, Pop(Push(Push(NoBytes(), b), c)));
    run, k := Turned(Start(0), run, k, Sem(1, []), i, Where(Outside, InDown(0, ToWait(0, Consumer)), Outside), {}, 2);
  }

  /** Reader 1 waits in the slot and reader 2 for the mutex; two bytes come; reader 1 takes one; reader 2 gets the mutex
      with a byte in the buffer, and sleeps. Between these calls there are only timer interrupts. */
  lemma ReaderSleepsBesideAByte(b: Byte, c: Byte) returns (run: seq<Action>, k: Kernel, k': Kernel)
    ensures Reaches(Start(0), run, k) && Formed(k) && Enabled(k, Resume) && Step(k, Resume) == Next(k')
    ensures Calls(run) == [Spawn(1, 31), Spawn(2, 31), Spawn(3, 31), Get(0), Get(0), Put(0, b), Put(0, c), Resume]
    ensures k.s.running == 2 && k.y.place[2] == InDown(0, ToWait(0, Consumer)) && k.y.sem[0].val > 0
    ensures !Empty(k.y.ioq[0].ring) && BlindReader(k, Resume, 0) && !ReaderStranded(k, 0)
    ensures ReaderStranded(k', 0) && k'.y.ioq[0].consumer == Some(2) && 2 in BlockedSet(k'.s)
    ensures k'.y.ioq[0].ring.put == [b, c] && k'.y.ioq[0].ring.got == [b]
  {
    hide KInv, Reaches, Calls, BlockedSet, Formed, Enabled, Step, Push, Pop, Full, Empty, NoBytes, At;
    var out, slot, line := Outside, InWait(0, Consumer), InDown(0, ToWait(0, Consumer));
    Bytes(b, c);
    var i := Ioq(0, None, None, Pop(Push(Push(NoBytes(), b), c)));
    Sets();
    Placed(out, line, out, slot);
    run, k := LateReader(b, c);
    Seen(k, Sem(1, []), i, Where(out, line, out), {});
    var more;
    more, k' := Sleeps(Start(0), run, k, Sem(1, []), i, Where(out, line, out), {}, Resume, Consumer);
    Seen(k', Sem(0, []), i.(consumer := Some(2)), Where(out, slot, out), {2});
  }

  // ----- a writer beside free room -----

  /** Writer 1 fills the buffer and waits in the slot, writer 2 for the mutex; two bytes are read; writer 1 writes one;
      writer 2 gets the mutex with room in the buffer, and sleeps. */
  lemma WriterSleepsBesideRoom(b: Byte, c: Byte) returns (run: seq<Action>, k: Kernel, k': Kernel)
    ensures Reaches(Start(0), run, k) && Formed(k) && Enabled(k, Resume) && Step(k, Resume) == Next(k')
    ensures k.s.running == 2 && k.y.place[2] == InDown(0, ToWait(0, Producer(c))) && k.y.sem[0].val > 0
    ensures BlindWriter(k, Resume, 0) && !WriterStranded(k, 0)
    ensures WriterStranded(k', 0) && k'.y.ioq[0].producer == Some(2) && 2 in BlockedSet(k'.s)
  {
    hide KInv, Reaches, Calls, BlockedSet, Formed, Enabled, Step, Push, Pop, Full, Empty, NoBytes, At, Fifo;
    var z, out, line, slot := Start(0), Outside, InDown(0, ToWait(0, Producer(c))), InWait(0, Producer(c));
    var ring;
    Sets();
    Placed(out, line, out, slot);
    run, k := Crew();
    run, k, ring := WritersWait(run, k, b, c);
    run, k, ring := MakesRoom(run, k, b, c, ring);
    var i := Ioq(0, None, None, ring);
    run, k := Turned(z, run, k, Sem(1, []), i, Where(out, line, out), {}, 2);
    Seen(k, Sem(1, []), i, Where(out, line, out), {});
    var more;
    more, k' := Sleeps(z, run, k, Sem(1, []), i, Where(out, line, out), {}, Resume, Producer(c));
    Seen(k', Sem(0, []), i.(producer := Some(2)), Where(out, slot, out), {2});
  }

  lemma MakesRoom(run: seq<Action>, k: Kernel, b: Byte, c: Byte, full: Ring)
    returns (run': seq<Action>, k': Kernel, ring: Ring)
    requires Reaches(Start(0), run, k) && Fifo(full) && Full(full)
    requires At(k, Sem(0, [2]), Ioq(0, Some(1), None, full),
                Where(InWait(0, Producer(b)), InDown(0, ToWait(0, Producer(c))), Outside), {1, 2})
    ensures Reaches(Start(0), run', k') && !Full(ring)
    ensures At(k', Sem(1, []), Ioq(0, None, None, ring),
               Where(Outside, InDown(0, ToWait(0, Producer(c))), Outside), {})
  {
    hide Reaches, Calls, Push, Pop, Full, Empty, At, Fifo;
    var z, out := Start(0), Outside;
    var slot, line := InWait(0, Producer(b)), InDown(0, ToWait(0, Producer(c)));
    Sets();
    Placed(slot, line, out, out);
    AfterFull(full, b);
    var i := Ioq(0, Some(1), None, full);
    run', k' := Turned(z, run, k, Sem(0, [2]), i, Where(slot, line, out), {1, 2}, 3);
    run', k' := Reads(z, run', k', Sem(0, [2]), i, Where(slot, line, out), {1, 2});
    i := Ioq(0, None, None, Pop(full));
    run', k' := Reads(z, run', k', Sem(0, [2]), i, Where(slot, line, out), {2});
    i := Ioq(0, None, None, Pop(Pop(full)));
    run', k' := Turned(z, run', k', Sem(0, [2]), i, Where(slot, line, out), {2}, 1);
    run', k' := Returns(z, run', k', Sem(0, [2]), i, Where(slot, line, out), {2});
    ring := Push(i.ring, b);
  }

  lemma WritersWait(run: seq<Action>, k: Kernel, b: Byte, c: Byte)
    returns (run': seq<Action>, k': Kernel, full: Ring)
    requires Reaches(Start(0), run, k)
    requires At(k, Sem(1, []), Ioq(0, None, None, NoBytes()), Where(Outside, Outside, Outside), {})
    ensures Reaches(Start(0), run', k') && Fifo(full) && Full(full)
    ensures At(k', Sem(0, [2]), Ioq(0, Some(1), None, full),
               Where(InWait(0, Producer(b)), InDown(0, ToWait(0, Producer(c))), Outside), {1, 2})
  {
    hide Reaches, Calls, NoBytes, At, Fifo, Full;
    var z, out := Start(0), Outside;
    var slot, line := InWait(0, Producer(b)), InDown(0, ToWait(0, Producer(c)));
    Sets();
    Placed(out, out, out, slot);
    Placed(slot, out, out, line);
    run', k', full := FillsAndWaits(run, k, b);
    var i := Ioq(0, Some(1), None, full);
    run', k' := Turned(z, run', k', Sem(0, []), i, Where(slot, out, out), {1}, 2);
    run', k' := Lines(z, run', k', Sem(0, []), i, Where(slot, out, out), {1}, Put(0, c), Producer(c));
  }

  lemma FillsAndWaits(run: seq<Action>, k: Kernel, b: Byte) returns (run': seq<Action>, k': Kernel, full: Ring)
    requires Reaches(Start(0), run, k)
    requires At(k, Sem(1, []), Ioq(0, None, None, NoBytes()), Where(Outside, Outside, Outside), {})
    ensures Reaches(Start(0), run', k') && Fifo(full) && Full(full)
    ensures At(k', Sem(0, []), Ioq(0, Some(1), None, full), Where(InWait(0, Producer(b)), Outside, Outside), {1})
  {
    hide Reaches, Calls, NoBytes, At, Fifo, Full;
    var z, out, i := Start(0), Outside, Ioq(0, None, None, NoBytes());
    NothingYet();
    Sets();
    Placed(out, out, out, InWait(0, Producer(b)));
    run', k' := Turned(z, run, k, Sem(1, []), i, Where(out, out, out), {}, 1);
    run', k', full := Fills(z, run', k', Sem(1, []), i, Where(out, out, out), {}, b);
    i := i.(ring := full);
    run', k' := Sleeps(z, run', k', Sem(1, []), i, Where(out, out, out), {}, Put(0, b), Producer(b));
  }

  lemma AfterFull(q: Ring, b: Byte)
    requires Fifo(q) && Full(q)
    ensures !Empty(q) && q.tail < |q.buf|
    ensures var p := Pop(q); !Empty(p) && p.tail < |p.buf|
    ensures var p := Pop(Pop(q)); !Full(p) && p.head < |p.buf| && !Full(Push(p, b))
  {
    hide Pop, Push, Indexed;
    Capacity(q);
    Room(q, b);
    var p := Pop(q);
    Room(p, b);
    Capacity(p);
    Room(Pop(p), b);
    Capacity(Pop(p));
    Capacity(Push(Pop(p), b));
  }

  // ----- a writer and a reader for good -----

  /** Writer 1 fills the buffer and sleeps in the slot with the mutex. Reader 2 empties the buffer and queues for the
      mutex. Writer 1 gives the mutex back, fills the buffer again, and takes the mutex before reader 2 runs. */
  lemma WriterAndReaderDeadlock(b: Byte) returns (run: seq<Action>, k: Kernel)
    ensures Reaches(Start(0), run, k) && KInv(k) && D.Deadlocked(k, 0, 1, 2)
    ensures k.y.place == Where(InWait(0, Producer(b)), InDown(0, ToWait(0, Consumer)), Outside)
  {
    hide KInv, Reaches, Calls, BlockedSet, Push, Pop, Full, Empty, NoBytes, At, Fifo;
    var z := Start(0);
    var out, slot, line := Outside, InWait(0, Producer(b)), InDown(0, ToWait(0, Consumer));
    Sets();
    Placed(slot, line, out, out);
    Placed(out, line, out, slot);
    Placed(slot, line, out, line);
    var ring;
    run, k := Crew();
    run, k, ring := FillsAndWaits(run, k, b);
    run, k, ring := EmptiesAndLines(run, k, b, ring);
    run, k, ring := FillsAgain(run, k, b, ring);
    var i := Ioq(0, Some(1), None, ring);
    run, k := Turned(z, run, k, Sem(0, []), i, Where(slot, line, out), {1}, 2);
    run, k := Lines(z, run, k, Sem(0, []), i, Where(slot, line, out), {1}, Resume, Consumer);
    Seen(k, Sem(0, [2]), i, Where(slot, line, out), {1, 2});
  }

  lemma EmptiesAndLines(run: seq<Action>, k: Kernel, b: Byte, full: Ring)
    returns (run': seq<Action>, k': Kernel, empty: Ring)
    requires Reaches(Start(0), run, k) && Fifo(full) && Full(full)
    requires At(k, Sem(0, []), Ioq(0, Some(1), None, full), Where(InWait(0, Producer(b)), Outside, Outside), {1})
    ensures Reaches(Start(0), run', k') && Fifo(empty) && Empty(empty)
    ensures At(k', Sem(0, [2]), Ioq(0, None, None, empty),
               Where(InWait(0, Producer(b)), InDown(0, ToWait(0, Consumer)), Outside), {2})
  {
    hide Reaches, Calls, At, Fifo, Full, Empty, Pop;
    var z, out := Start(0), Outside;
    var slot, line := InWait(0, Producer(b)), InDown(0, ToWait(0, Consumer));
    Sets();
    Placed(slot, out, out, line);
    AfterFull(full, b);
    PoppedRing(full);
    var i := Ioq(0, Some(1), None, full);
    run', k' := Turned(z, run, k, Sem(0, []), i, Where(slot, out, out), {1}, 2);
    run', k' := Reads(z, run', k', Sem(0, []), i, Where(slot, out, out), {1});
    i := Ioq(0, None, None, Pop(full));
    run', k', empty := Drains(z, run', k', Sem(0, []), i, Where(slot, out, out), {});
    i := i.(ring := empty);
    run', k' := Lines(z, run', k', Sem(0, []), i, Where(slot, out, out), {}, Get(0), Consumer);
  }

  lemma FillsAgain(run: seq<Action>, k: Kernel, b: Byte, empty: Ring)
    returns (run': seq<Action>, k': Kernel, full: Ring)
    requires Reaches(Start(0), run, k) && Fifo(empty) && Empty(empty)
    requires At(k, Sem(0, [2]), Ioq(0, None, None, empty),
                Where(InWait(0, Producer(b)), InDown(0, ToWait(0, Consumer)), Outside), {2})
    ensures Reaches(Start(0), run', k') && Full(full)
    ensures At(k', Sem(0, []), Ioq(0, Some(1), None, full),
               Where(InWait(0, Producer(b)), InDown(0, ToWait(0, Consumer)), Outside), {1})
  {
    hide Reaches, Calls, Push, Full, Empty, At, Fifo;
    var z, out := Start(0), Outside;
    var slot, line := InWait(0, Producer(b)), InDown(0, ToWait(0, Consumer));
    Sets();
    Placed(slot, line, out, out);
    Placed(out, line, out, slot);
    EmptyHasRoom(empty, b);
    var i := Ioq(0, None, None, empty);
    run', k' := Turned(z, run, k, Sem(0, [2]), i, Where(slot, line, out), {2}, 1);
    run', k' := Returns(z, run', k', Sem(0, [2]), i, Where(slot, line, out), {2});
    i := i.(ring := Push(empty, b));
    run', k', full := Fills(z, run', k', Sem(1, []), i, Where(out, line, out), {}, b);
    i := i.(ring := full);
    run', k' := Sleeps(z, run', k', Sem(1, []), i, Where(out, line, out), {}, Put(0, b), Producer(b));
  }

  lemma PoppedRing(q: Ring)
    requires Fifo(q) && !Empty(q)
    ensures q.tail < |q.buf| && Fifo(Pop(q))
  {
    PopKeeps(q);
  }

  lemma EmptyHasRoom(q: Ring, b: Byte)
    requires Fifo(q) && Empty(q)
    ensures !Full(q) && q.head < |q.buf| && Fifo(Push(q, b))
  {
    PushKeeps(q, b);
  }
}

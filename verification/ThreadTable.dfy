/** pid_alloc: a pid is the index of the first free slot of the thread table, and no slot is ever freed. */
module ThreadTables {
  import opened Options
  import Lists = IntrusiveLists

  const MAX_THREAD_NUM: nat := 128

  type Slots = seq<Option<nat>>

  /** The first free index at or after `from`, or the length if the rest is taken. */
  function FirstFree(s: Slots, from: nat): (i: nat)
    requires from <= |s|
    ensures from <= i <= |s| && (i < |s| ==> s[i] == None)
    ensures forall k | from <= k < i :: s[k].Some?
    decreases |s| - from
  {
    if from == |s| || s[from].None? then from else FirstFree(s, from + 1)
  }

  /** The pid a new thread ends up with. Its control block was zeroed, so with a full table it keeps pid 0. */
  function Pid(s: Slots): nat {
    var i := FirstFree(s, 0);
    if i < |s| then i else 0
  }

  function Registered(s: Slots, t: nat): Slots {
    var i := FirstFree(s, 0);
    if i < |s| then s[i := Some(t)] else s
  }

  /** The pids of threads created one after another. */
  function Pids(s: Slots, threads: seq<nat>): (r: seq<nat>)
    ensures |r| == |threads|
    decreases |threads|
  {
    if threads == [] then [] else [Pid(s)] + Pids(Registered(s, threads[0]), threads[1..])
  }

  predicate FilledUpTo(s: Slots, n: nat) {
    |s| == MAX_THREAD_NUM && n <= |s| && forall k | 0 <= k < |s| :: s[k].Some? <==> k < n
  }

  lemma {:induction false} PidsFrom(s: Slots, n: nat, threads: seq<nat>, i: nat)
    requires FilledUpTo(s, n) && i < |threads|
    ensures Pids(s, threads)[i] == if n + i < MAX_THREAD_NUM then n + i else 0
    decreases i
  {
    var f := FirstFree(s, 0);
    assert n < |s| ==> !s[n].Some?;
    assert f < |s| ==> !s[f].Some?;
    assert f == n;
    if i > 0 {
      var s' := Registered(s, threads[0]);
      PidsFrom(s', if n < MAX_THREAD_NUM then n + 1 else n, threads[1..], i - 1);
    }
  }

  function EmptySlots(): Slots {
    seq(MAX_THREAD_NUM, i => None)
  }

  /** No two threads share a pid exactly as long as at most 128 were ever created. */
  lemma PidsAreDistinct(threads: seq<nat>)
    ensures Lists.Distinct(Pids(EmptySlots(), threads)) <==> |threads| <= MAX_THREAD_NUM
  {
    var r := Pids(EmptySlots(), threads);
    forall i: nat | i < |threads| ensures r[i] == if i < MAX_THREAD_NUM then i else 0 {
      PidsFrom(EmptySlots(), 0, threads, i);
    }
    if |threads| > MAX_THREAD_NUM {
      assert r[0] == r[MAX_THREAD_NUM];
    }
  }

  /** The table after threads were created one after another. */
  function TableAfter(s: Slots, threads: seq<nat>): (r: Slots)
    ensures |r| == |s|
    decreases |threads|
  {
    if threads == [] then s else TableAfter(Registered(s, threads[0]), threads[1..])
  }

  lemma {:induction false} TableFrom(s: Slots, n: nat, threads: seq<nat>, j: nat)
    requires FilledUpTo(s, n) && j < MAX_THREAD_NUM
    ensures TableAfter(s, threads)[j]
            == if j < n then s[j] else if j < n + |threads| then Some(threads[j - n]) else None
    decreases |threads|
  {
    assert s[j].Some? <==> j < n;
    if threads != [] {
      var f := FirstFree(s, 0);
      assert n < |s| ==> !s[n].Some?;
      assert f < |s| ==> !s[f].Some?;
      assert f == n;
      TableFrom(Registered(s, threads[0]), if n < MAX_THREAD_NUM then n + 1 else n, threads[1..], j);
    }
  }

  /** Slot i names the i-th thread created; the slots of threads not yet created are free. So a thread with a slot of
      its own finds it under its pid. */
  lemma SlotsNameTheirThreads(threads: seq<nat>)
    ensures var s := TableAfter(EmptySlots(), threads);
            && |s| == MAX_THREAD_NUM
            && (forall i | 0 <= i < MAX_THREAD_NUM :: s[i] == if i < |threads| then Some(threads[i]) else None)
    ensures var s := TableAfter(EmptySlots(), threads);
            forall i | 0 <= i < |threads| && i < MAX_THREAD_NUM ::
              Pids(EmptySlots(), threads)[i] < |s| && s[Pids(EmptySlots(), threads)[i]] == Some(threads[i])
  {
    var s := TableAfter(EmptySlots(), threads);
    forall i | 0 <= i < MAX_THREAD_NUM ensures s[i] == if i < |threads| then Some(threads[i]) else None {
      TableFrom(EmptySlots(), 0, threads, i);
    }
    forall i | 0 <= i < |threads| && i < MAX_THREAD_NUM ensures Pids(EmptySlots(), threads)[i] == i {
      PidsFrom(EmptySlots(), 0, threads, i);
    }
  }

  class ThreadTable {
    const table: array<Option<nat>>

    constructor ()
      ensures fresh(table) && table[..] == EmptySlots()
    {
      table := new Option<nat>[MAX_THREAD_NUM](_ => None);
    }

    method PidAlloc(thread: nat) returns (pid: nat)
      requires table.Length == MAX_THREAD_NUM
      modifies table
      ensures pid == Pid(old(table[..])) && table[..] == Registered(old(table[..]), thread)
      ensures pid < 128 && forall i | 0 <= i < 128 && i != pid :: table[i] == old(table[i])
      ensures if (exists i | 0 <= i < 128 :: old(table[i]) == None)
              then old(table[pid]) == None && table[pid] == Some(thread)
                && forall i | 0 <= i < pid :: old(table[i]) != None
              else pid == 0 && table[0] == old(table[0])
    {
      pid := 0;
      ghost var was := table[..];
      var i := 0;
      while i < MAX_THREAD_NUM
        invariant i <= MAX_THREAD_NUM && pid == 0 && table[..] == was
        invariant FirstFree(was, 0) == FirstFree(was, i)
      {
        if table[i] == None {
          pid := i;
          table[i] := Some(thread);
          break;
        }
        i := i + 1;
      }
    }
  }
}

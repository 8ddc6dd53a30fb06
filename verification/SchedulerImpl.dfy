/** thread.c's scheduler on its own data: intrusive ready queues, a mask bitmap in bytes, control blocks changed in
    place. Every method is proved against the function of the same name on values. */
module SchedulerObjects {
  import opened Options
  import opened Bitmaps
  import Lists = IntrusiveLists
  import S = Scheduling
  import P = Preemption

  type Tid = S.Tid
  type Entry = map<Lists.ListElem, Tid>
  type Tags = map<Tid, Lists.ListElem>

  // ----- reading queues of threads off lists of tags -----

  ghost function Ids(entry: Entry, s: seq<Lists.ListElem>): (r: seq<Tid>)
    ensures |r| == |s| && forall i | 0 <= i < |s| && s[i] in entry :: r[i] == entry[s[i]]
  {
    if s == [] then [] else [if s[0] in entry then entry[s[0]] else 0] + Ids(entry, s[1..])
  }

  ghost function Queues(rq: seq<Lists.List>, lists: Lists.Family, entry: Entry): (r: seq<seq<Tid>>)
    ensures |r| == |rq| && forall p | 0 <= p < |rq| && rq[p] in lists :: r[p] == Ids(entry, lists[rq[p]])
  {
    seq(|rq|, p requires 0 <= p < |rq| => if rq[p] in lists then Ids(entry, lists[rq[p]]) else [])
  }

  /** Tags and threads correspond, and a ready_tag is only ever linked into a ready queue. */
  ghost predicate Tagged(rq: seq<Lists.List>, lists: Lists.Family, entry: Entry, tags: Tags) {
    && (forall t | t in tags :: tags[t] in entry && entry[tags[t]] == t)
    && (forall p, e | 0 <= p < |rq| && rq[p] in lists && e in lists[rq[p]] ::
       e in entry && entry[e] in tags && tags[entry[e]] == e)
    && (forall l, t | l in lists && t in tags && tags[t] in Lists.Nodes(l, lists[l]) :: l in rq && tags[t] in lists[l])
  }

  ghost function TagSet(tags: Tags): set<Lists.ListElem> {
    set t | t in tags :: tags[t]
  }

  ghost predicate Separate(rq: seq<Lists.List>, lists: Lists.Family) {
    && (forall p | 0 <= p < |rq| :: rq[p] in lists)
    && (forall p, q | 0 <= p < q < |rq| :: rq[p] != rq[q])
  }

  /** What the lists other than these hold. */
  ghost function Others(rq: seq<Lists.List>, lists: Lists.Family): Lists.Family {
    map l | l in lists && l !in rq :: lists[l]
  }

  lemma OthersReplaced(rq: seq<Lists.List>, lists: Lists.Family, p: nat, s: seq<Lists.ListElem>)
    requires Separate(rq, lists) && p < |rq|
    ensures Others(rq, lists[rq[p] := s]) == Others(rq, lists)
  {
  }

  lemma QueuesReplaced(rq: seq<Lists.List>, lists: Lists.Family, entry: Entry, p: nat, s: seq<Lists.ListElem>)
    requires Separate(rq, lists) && p < |rq|
    ensures Queues(rq, lists[rq[p] := s], entry) == Queues(rq, lists, entry)[p := Ids(entry, s)]
  {
  }

  lemma TaggedReplaced(rq: seq<Lists.List>, lists: Lists.Family, entry: Entry, tags: Tags, p: nat,
      s: seq<Lists.ListElem>, t: Tid)
    requires Separate(rq, lists) && p < |rq| && Tagged(rq, lists, entry, tags) && t in tags
    requires forall e | e in s :: e == tags[t] || e in lists[rq[p]]
    requires forall e | e in lists[rq[p]] && e !in s :: e == tags[t]
    requires forall u | u in tags :: tags[u] != rq[p].head && tags[u] != rq[p].tail
    ensures Tagged(rq, lists[rq[p] := s], entry, tags)
  {
  }

  lemma TagsAreNoSentinels(rq: seq<Lists.List>, lists: Lists.Family, entry: Entry, tags: Tags, p: nat)
    requires Separate(rq, lists) && p < |rq| && Tagged(rq, lists, entry, tags) && Lists.Holds(lists)
    ensures forall u | u in tags :: tags[u] != rq[p].head && tags[u] != rq[p].tail
  {
    var l := rq[p];
    var c := Lists.Nodes(l, lists[l]);
    assert c[0] == l.head && c[|c| - 1] == l.tail;
    forall u | u in tags ensures tags[u] != l.head && tags[u] != l.tail {
      if tags[u] in lists[l] {
        var i :| 0 <= i < |lists[l]| && lists[l][i] == tags[u];
        assert c[i + 1] == tags[u];
      }
    }
  }

  /** A tag that is in some list is in a queue. */
  lemma QueuedSomewhere(rq: seq<Lists.List>, lists: Lists.Family, entry: Entry, tags: Tags, t: Tid)
    requires Separate(rq, lists) && Tagged(rq, lists, entry, tags) && t in tags && tags[t] in Lists.Footprint(lists)
    ensures exists p | 0 <= p < |rq| :: t in Queues(rq, lists, entry)[p]
  {
    var l :| l in lists && tags[t] in Lists.Nodes(l, lists[l]);
    var p :| 0 <= p < |rq| && rq[p] == l;
    assert Queues(rq, lists, entry)[p] == Ids(entry, lists[l]);
    IdsOf(entry, lists[l], tags[t]);
  }

  /** A thread in no queue has its tag in no list. */
  lemma Unqueued(rq: seq<Lists.List>, lists: Lists.Family, entry: Entry, tags: Tags, t: Tid)
    requires Separate(rq, lists) && Tagged(rq, lists, entry, tags) && t in tags
    requires forall p | 0 <= p < |rq| :: t !in Queues(rq, lists, entry)[p]
    ensures tags[t] !in Lists.Footprint(lists)
  {
    if tags[t] in Lists.Footprint(lists) {
      QueuedSomewhere(rq, lists, entry, tags, t);
    }
  }

  lemma IdsOf(entry: Entry, s: seq<Lists.ListElem>, e: Lists.ListElem)
    requires e in s && e in entry
    ensures entry[e] in Ids(entry, s)
  {
    var i :| 0 <= i < |s| && s[i] == e;
    assert Ids(entry, s)[i] == entry[e];
  }

  lemma {:induction false} IdsAppend(entry: Entry, a: seq<Lists.ListElem>, b: seq<Lists.ListElem>)
    ensures Ids(entry, a + b) == Ids(entry, a) + Ids(entry, b)
  {
    if a != [] {
      assert (a + b)[1..] == a[1..] + b;
      IdsAppend(entry, a[1..], b);
    } else {
      assert a + b == b;
    }
  }

  lemma {:induction false} IdsWithout(entry: Entry, tags: Tags, s: seq<Lists.ListElem>, t: Tid)
    requires t in tags && tags[t] in entry && entry[tags[t]] == t
    requires forall e | e in s :: e in entry && entry[e] in tags && tags[entry[e]] == e
    ensures Ids(entry, Lists.Without(s, tags[t])) == Lists.Without(Ids(entry, s), t)
  {
    if s != [] {
      IdsWithout(entry, tags, s[1..], t);
      assert s[0] in s;
      assert Ids(entry, s) == [entry[s[0]]] + Ids(entry, s[1..]);
      assert s[0] == tags[t] <==> entry[s[0]] == t;
    }
  }

  /** Linking a tag that is in no list, into ready queue p. */
  lemma LinkedQueue(rq: seq<Lists.List>, lists: Lists.Family, entry: Entry, tags: Tags, p: nat, t: Tid,
      s: seq<Lists.ListElem>)
    requires Separate(rq, lists) && p < |rq| && Tagged(rq, lists, entry, tags) && t in tags
    requires tags[t] !in Lists.Footprint(lists) && Lists.Holds(lists)
    requires s == [tags[t]] + lists[rq[p]] || s == lists[rq[p]] + [tags[t]]
    ensures var lists' := lists[rq[p] := s];
            && Separate(rq, lists') && Tagged(rq, lists', entry, tags)
            && Lists.Footprint(lists') == Lists.Footprint(lists) + {tags[t]}
            && Queues(rq, lists', entry) == Queues(rq, lists, entry)[p := Ids(entry, s)]
            && Others(rq, lists') == Others(rq, lists)
    ensures Ids(entry, [tags[t]] + lists[rq[p]]) == [t] + Queues(rq, lists, entry)[p]
    ensures Ids(entry, lists[rq[p]] + [tags[t]]) == Queues(rq, lists, entry)[p] + [t]
  {
    hide Lists.Links;
    var l, lists' := rq[p], lists[rq[p] := s];
    TagsAreNoSentinels(rq, lists, entry, tags, p);
    TaggedReplaced(rq, lists, entry, tags, p, s, t);
    QueuesReplaced(rq, lists, entry, p, s);
    OthersReplaced(rq, lists, p, s);
    IdsAppend(entry, [tags[t]], lists[l]);
    IdsAppend(entry, lists[l], [tags[t]]);
    assert Ids(entry, [tags[t]]) == [t];
    FootprintReplaced(lists, l, s, tags[t]);
  }

  lemma FootprintReplaced(lists: Lists.Family, l: Lists.List, s: seq<Lists.ListElem>, e: Lists.ListElem)
    requires l in lists && forall x :: x in s <==> x in lists[l] || x == e
    ensures Lists.Footprint(lists[l := s]) == Lists.Footprint(lists) + {e}
  {
    var lists' := lists[l := s];
    forall x ensures x in Lists.Footprint(lists') <==> x in Lists.Footprint(lists) || x == e {
      if x in Lists.Footprint(lists) {
        var m: Lists.List :| m in lists && x in Lists.Nodes(m, lists[m]);
        assert x in Lists.Nodes(m, lists'[m]);
      }
      if x in Lists.Footprint(lists') {
        var m: Lists.List :| m in lists' && x in Lists.Nodes(m, lists'[m]);
        assert x == e || x in Lists.Nodes(m, lists[m]);
      }
      assert e in Lists.Nodes(l, lists'[l]);
    }
  }

  /** Unlinking a thread's tag, whichever list has it, changes its own queue when that one has the thread. */
  lemma UnlinkedQueue(rq: seq<Lists.List>, lists: Lists.Family, entry: Entry, tags: Tags, p: nat, t: Tid)
    requires Separate(rq, lists) && p < |rq| && Tagged(rq, lists, entry, tags) && t in tags && Lists.Holds(lists)
    requires t in Queues(rq, lists, entry)[p]
    ensures Lists.Linked(lists, tags[t])
    ensures var lists' := Lists.Unlinked(lists, tags[t]);
            && Separate(rq, lists') && Tagged(rq, lists', entry, tags)
            && Lists.Footprint(lists') + {tags[t]} == Lists.Footprint(lists)
            && Queues(rq, lists', entry) == Queues(rq, lists, entry)[p := Lists.Without(Queues(rq, lists, entry)[p], t)]
            && Others(rq, lists') == Others(rq, lists)
  {
    hide Lists.Holds, Lists.Unlinked, Lists.Linked, Lists.Footprint, Lists.Apart, Ids, Tagged, Queues, Others;
    var l := rq[p];
    var s := Lists.Without(lists[l], tags[t]);
    TagIsThere(rq, lists, entry, tags, p, t);
    Lists.UnlinkedFrom(lists, l, tags[t]);
    Readable(rq, lists, entry, tags, p);
    TagsAreNoSentinels(rq, lists, entry, tags, p);
    TaggedReplaced(rq, lists, entry, tags, p, s, t);
    QueuesReplaced(rq, lists, entry, p, s);
    OthersReplaced(rq, lists, p, s);
    IdsWithout(entry, tags, lists[l], t);
    FootprintReplaced(lists[l := s], l, lists[l], tags[t]);
    assert lists[l := s][l := lists[l]] == lists;
  }

  /** Taking the first tag off list p takes the first thread off its queue. */
  lemma PoppedQueue(rq: seq<Lists.List>, lists: Lists.Family, entry: Entry, tags: Tags, p: nat)
    requires Separate(rq, lists) && p < |rq| && Tagged(rq, lists, entry, tags) && Lists.Holds(lists)
             && lists[rq[p]] != []
    ensures var e := lists[rq[p]][0];
            && e in entry && entry[e] in tags && tags[entry[e]] == e
            && Queues(rq, lists, entry)[p] == [entry[e]] + Queues(rq, lists, entry)[p][1..]
    ensures var e, lists' := lists[rq[p]][0], lists[rq[p] := lists[rq[p]][1..]];
            && Separate(rq, lists') && Tagged(rq, lists', entry, tags)
            && Lists.Footprint(lists') + {e} == Lists.Footprint(lists)
            && Queues(rq, lists', entry) == Queues(rq, lists, entry)[p := Queues(rq, lists, entry)[p][1..]]
  {
    hide Lists.Holds, Lists.Footprint, Lists.Apart, Tagged, Queues, Others;
    var l := rq[p];
    var e, s := lists[l][0], lists[l][1..];
    assert e in lists[l];
    Readable(rq, lists, entry, tags, p);
    TagsAreNoSentinels(rq, lists, entry, tags, p);
    TaggedReplaced(rq, lists, entry, tags, p, s, entry[e]);
    QueuesReplaced(rq, lists, entry, p, s);
    FootprintReplaced(lists[l := s], l, lists[l], e);
    assert lists[l := s][l := lists[l]] == lists;
    assert Ids(entry, lists[l]) == [entry[e]] + Ids(entry, s);
  }

  lemma Readable(rq: seq<Lists.List>, lists: Lists.Family, entry: Entry, tags: Tags, p: nat)
    requires Separate(rq, lists) && p < |rq| && Tagged(rq, lists, entry, tags)
    ensures forall t | t in tags :: tags[t] in entry && entry[tags[t]] == t
    ensures forall e | e in lists[rq[p]] :: e in entry && entry[e] in tags && tags[entry[e]] == e
  {
  }

  lemma TagIsThere(rq: seq<Lists.List>, lists: Lists.Family, entry: Entry, tags: Tags, p: nat, t: Tid)
    requires Separate(rq, lists) && p < |rq| && Tagged(rq, lists, entry, tags)
    requires t in Queues(rq, lists, entry)[p]
    ensures t in tags && tags[t] in lists[rq[p]]
  {
    var s := lists[rq[p]];
    var i :| 0 <= i < |s| && Ids(entry, s)[i] == t;
    assert s[i] in s;
  }

  /** Another list changes, by elements that are no tags of these queues. */
  lemma OutsideReplaced(rq: seq<Lists.List>, lists: Lists.Family, entry: Entry, tags: Tags, l: Lists.List,
      s: seq<Lists.ListElem>)
    requires Separate(rq, lists) && Tagged(rq, lists, entry, tags) && l in lists && l !in rq
    requires forall t | t in tags :: tags[t] !in s
    ensures var lists' := lists[l := s];
            && Separate(rq, lists') && Tagged(rq, lists', entry, tags)
            && Queues(rq, lists', entry) == Queues(rq, lists, entry)
  {
    var lists' := lists[l := s];
    forall m, t | m in lists' && t in tags && tags[t] in Lists.Nodes(m, lists'[m])
      ensures m in rq && tags[t] in lists'[m] {
      assert tags[t] in Lists.Nodes(m, lists[m]);
    }
  }

  /** Two groups of queues with tags of their own: what only changes the first leaves the second. */
  lemma GroupKept(rq: seq<Lists.List>, ws: seq<Lists.List>, lists: Lists.Family, lists': Lists.Family,
                  entry: Entry, tags: Tags, wentry: Entry, wtags: Tags)
    requires Separate(rq, lists) && Separate(rq, lists') && Others(rq, lists') == Others(rq, lists)
    requires Tagged(rq, lists', entry, tags) && TagSet(tags) !! TagSet(wtags)
    requires Separate(ws, lists) && Tagged(ws, lists, wentry, wtags) && forall w | w in ws :: w !in rq
    ensures Separate(ws, lists') && Tagged(ws, lists', wentry, wtags)
    ensures Queues(ws, lists', wentry) == Queues(ws, lists, wentry)
  {
    SameOthers(rq, lists, lists');
    forall p | 0 <= p < |ws| ensures ws[p] in lists' && lists'[ws[p]] == lists[ws[p]] {
      assert ws[p] in ws;
    }
    forall m, t | m in lists' && t in wtags && wtags[t] in Lists.Nodes(m, lists'[m])
      ensures m in ws && wtags[t] in lists'[m] {
      assert wtags[t] in TagSet(wtags);
      if m in rq {
        Foreign(rq, lists', entry, tags, m);
      }
      assert wtags[t] in Lists.Nodes(m, lists[m]);
    }
  }

  lemma SameOthers(rq: seq<Lists.List>, lists: Lists.Family, lists': Lists.Family)
    requires Separate(rq, lists) && Separate(rq, lists') && Others(rq, lists') == Others(rq, lists)
    ensures lists'.Keys == lists.Keys
    ensures forall l | l in lists && l !in rq :: lists'[l] == lists[l]
  {
    forall l ensures l in lists' <==> l in lists {
      if l !in rq {
        assert l in Others(rq, lists') <==> l in Others(rq, lists);
      }
    }
    forall l | l in lists && l !in rq ensures lists'[l] == lists[l] {
      assert Others(rq, lists')[l] == Others(rq, lists)[l];
    }
  }

  lemma Foreign(rq: seq<Lists.List>, lists: Lists.Family, entry: Entry, tags: Tags, l: Lists.List)
    requires Separate(rq, lists) && Tagged(rq, lists, entry, tags) && l in rq
    ensures forall e | e in lists[l] :: e in TagSet(tags)
  {
    var p :| 0 <= p < |rq| && rq[p] == l;
    forall e | e in lists[l] ensures e in TagSet(tags) {
      assert tags[entry[e]] == e;
    }
  }

  class Scheduler {
    var runningThread: Tid
    var needSchedule: bool
    const rq: seq<Lists.List>
    const rqMask: Bitmap
    var tcb: map<Tid, S.Tcb>
    /** The address of each thread's ready_tag, and ELEM2ENTRY's way back. */
    var readyTag: Tags
    var entry: Entry
    /** What every list of the kernel holds; the ready queues are some of them. */
    ghost var lists: Lists.Family

    /** scheduler_init, on lists already initialised and a mask already cleared; no thread exists yet. */
    constructor (rq: seq<Lists.List>, rqMask: Bitmap, ghost lists: Lists.Family)
      requires |rq| == S.PRIO_NUM && Separate(rq, lists) && Lists.Holds(lists)
               && forall p | 0 <= p < S.PRIO_NUM :: lists[rq[p]] == []
      requires rqMask.Valid() && rqMask.bitNum == S.PRIO_NUM && rqMask.Bits() == {}
      ensures Valid() && this.rq == rq && this.rqMask == rqMask && this.lists == lists
      ensures tcb == map[] && !needSchedule && Abs().mask == {} && forall p | 0 <= p < S.PRIO_NUM :: Abs().rq[p] == []
    {
      this.rq, this.rqMask, this.lists := rq, rqMask, lists;
      runningThread, needSchedule := 0, false;
      tcb, readyTag, entry := map[], map[], map[];
    }

    ghost predicate Valid()
      reads this, rqMask.bytes, Lists.Footprint(lists)
      ensures Valid() ==> rqMask.Valid()
    {
      && |rq| == S.PRIO_NUM && Separate(rq, lists) && Lists.Holds(lists)
      && rqMask.Valid() && rqMask.bitNum == S.PRIO_NUM
      && tcb.Keys == readyTag.Keys && Tagged(rq, lists, entry, readyTag)
    }

    ghost function Abs(): S.Sched
      requires rqMask.Valid()
      reads this, rqMask.bytes
    {
      S.Sched(runningThread, needSchedule, Queues(rq, lists, entry), rqMask.Bits(), tcb)
    }

    ghost function Repr(): (r: set<object>)
      reads this
      ensures this in r && rqMask.bytes in r
    {
      {this, rqMask.bytes} + Lists.Footprint(lists) + TagSet(readyTag)
    }

    /** What the methods below leave alone: the lists that are no ready queues, and which tag is whose. */
    ghost function Rest(): (Lists.Family, Tags)
      reads this
    {
      (Others(rq, lists), readyTag)
    }

    // ----- one list or bitmap call each, on the whole scheduler's state -----

    method PushBack(p: nat, t: Tid)
      requires Valid() && p < S.PRIO_NUM && t in tcb
      requires forall q | 0 <= q < S.PRIO_NUM :: t !in Abs().rq[q]
      modifies Repr()
      ensures Valid() && Repr() == old(Repr()) && Rest() == old(Rest())
      ensures Abs() == old(Abs()).(rq := old(Abs()).rq[p := old(Abs()).rq[p] + [t]])
    {
      hide Queues, Tagged, Ids, Lists.Holds, Lists.Footprint;
      Lists.NodesInFootprint(lists, rq[p]);
      assert Abs().rq == Queues(rq, lists, entry);
      Unqueued(rq, lists, entry, readyTag, t);
      ghost var s := lists[rq[p]] + [readyTag[t]];
      LinkedQueue(rq, lists, entry, readyTag, p, t, s);
      Lists.PushBack(rq[p], readyTag[t], lists);
      lists := lists[rq[p] := s];
    }

    method PushFront(p: nat, t: Tid)
      requires Valid() && p < S.PRIO_NUM && t in tcb
      requires forall q | 0 <= q < S.PRIO_NUM :: t !in Abs().rq[q]
      modifies Repr()
      ensures Valid() && Repr() == old(Repr()) && Rest() == old(Rest())
      ensures Abs() == old(Abs()).(rq := old(Abs()).rq[p := [t] + old(Abs()).rq[p]])
    {
      hide Queues, Tagged, Ids, Lists.Holds, Lists.Footprint;
      Lists.NodesInFootprint(lists, rq[p]);
      assert Abs().rq == Queues(rq, lists, entry);
      Unqueued(rq, lists, entry, readyTag, t);
      ghost var s := [readyTag[t]] + lists[rq[p]];
      LinkedQueue(rq, lists, entry, readyTag, p, t, s);
      Lists.PushFront(rq[p], readyTag[t], lists);
      lists := lists[rq[p] := s];
    }

    method Unlink(p: nat, t: Tid)
      requires Valid() && p < S.PRIO_NUM && t in Abs().rq[p] && t in tcb
      modifies Repr()
      ensures Valid() && Repr() == old(Repr()) && Rest() == old(Rest())
      ensures Abs() == old(Abs()).(rq := old(Abs()).rq[p := Lists.Without(old(Abs()).rq[p], t)])
    {
      hide Queues, Tagged, Ids, Lists.Holds, Lists.Footprint, Lists.Unlinked, Lists.Linked;
      UnlinkedQueue(rq, lists, entry, readyTag, p, t);
      Lists.NeighboursInFootprint(lists, readyTag[t]);
      Lists.Remove(readyTag[t], lists);
      lists := Lists.Unlinked(lists, readyTag[t]);
    }

    method IsEmpty(p: nat) returns (e: bool)
      requires Valid() && p < S.PRIO_NUM
      ensures Valid() && Abs() == old(Abs()) && Repr() == old(Repr()) && Rest() == old(Rest())
      ensures e <==> Abs().rq[p] == []
    {
      e := Lists.Empty(rq[p], lists);
    }

    /** ELEM2ENTRY of the first element. */
    method First(p: nat) returns (t: Tid)
      requires Valid() && p < S.PRIO_NUM && Abs().rq[p] != []
      ensures Valid() && Abs() == old(Abs()) && Repr() == old(Repr()) && Rest() == old(Rest())
      ensures t == Abs().rq[p][0]
    {
      var e := Lists.FirstElem(rq[p], lists);
      assert lists[rq[p]][0] in lists[rq[p]];
      t := entry[e];
    }

    method MaskSet(p: nat)
      requires Valid() && p < S.PRIO_NUM
      modifies rqMask.bytes
      ensures Valid() && Repr() == old(Repr()) && Rest() == old(Rest())
      ensures Abs() == old(Abs()).(mask := old(Abs()).mask + {p})
    {
      hide Queues, Tagged, Ids;
      rqMask.Set(p);
    }

    method MaskClear(p: nat)
      requires Valid() && p < S.PRIO_NUM
      modifies rqMask.bytes
      ensures Valid() && Repr() == old(Repr()) && Rest() == old(Rest())
      ensures Abs() == old(Abs()).(mask := old(Abs()).mask - {p})
    {
      hide Queues, Tagged, Ids;
      rqMask.Clear(p);
    }

    method SetTcb(t: Tid, c: S.Tcb)
      requires Valid() && t in tcb
      modifies this`tcb
      ensures Valid() && Repr() == old(Repr()) && Rest() == old(Rest())
      ensures Abs() == old(Abs()).(tcb := old(Abs()).tcb[t := c])
    {
      hide Queues, Tagged, Ids, Lists.Chain;
      tcb := tcb[t := c];
    }

    method SetRunning(t: Tid)
      requires Valid()
      modifies this`runningThread
      ensures Valid() && Repr() == old(Repr()) && Rest() == old(Rest())
      ensures Abs() == old(Abs()).(running := t)
    {
      hide Queues, Tagged, Ids, Lists.Chain;
      runningThread := t;
    }

    method SetNeed(need: bool)
      requires Valid()
      modifies this`needSchedule
      ensures Valid() && Repr() == old(Repr()) && Rest() == old(Rest())
      ensures Abs() == old(Abs()).(need := need)
    {
      hide Queues, Tagged, Ids, Lists.Chain;
      needSchedule := need;
    }

    // ----- the kernel's other lists -----

    /** list_push_back on a list that is no ready queue. */
    method PushBackElsewhere(l: Lists.List, e: Lists.ListElem)
      requires Valid() && l in lists && l !in rq && e !in Lists.Footprint(lists)
      requires forall t | t in readyTag :: readyTag[t] !in lists[l] + [e]
      modifies Repr(), e
      ensures Valid() && Abs() == old(Abs()) && lists == old(lists)[l := old(lists)[l] + [e]]
      ensures entry == old(entry) && readyTag == old(readyTag)
      ensures Lists.Footprint(lists) == old(Lists.Footprint(lists)) + {e} && Repr() == old(Repr()) + {e}
    {
      hide Queues, Tagged, Ids, Lists.Holds, Lists.Footprint, Separate;
      ghost var s := lists[l] + [e];
      Lists.NodesInFootprint(lists, l);
      OutsideReplaced(rq, lists, entry, readyTag, l, s);
      FootprintReplaced(lists, l, s, e);
      Lists.PushBack(l, e, lists);
      lists := lists[l := s];
    }

    /** list_pop_front on a list that is no ready queue. */
    method PopFrontElsewhere(l: Lists.List) returns (e: Lists.ListElem)
      requires Valid() && l in lists && l !in rq && lists[l] != []
      requires forall t | t in readyTag :: readyTag[t] !in lists[l]
      modifies Repr()
      ensures Valid() && Abs() == old(Abs()) && e == old(lists)[l][0] && lists == old(lists)[l := old(lists)[l][1..]]
      ensures entry == old(entry) && readyTag == old(readyTag)
      ensures Lists.Footprint(lists) + {e} == old(Lists.Footprint(lists)) && Repr() + {e} == old(Repr())
    {
      hide Queues, Tagged, Ids, Lists.Holds, Lists.Footprint, Separate;
      ghost var s := lists[l][1..];
      Lists.NodesInFootprint(lists, l);
      OutsideReplaced(rq, lists, entry, readyTag, l, s);
      FootprintReplaced(lists[l := s], l, lists[l], lists[l][0]);
      assert lists[l := s][l := lists[l]] == lists;
      e := Lists.PopFront(l, lists);
      lists := lists[l := s];
    }

    // ----- thread.c -----

    method RqJoinOnly(t: Tid)
      requires Valid() && S.Shape(Abs()) && t in tcb
      requires forall p | 0 <= p < S.PRIO_NUM :: t !in Abs().rq[p]
      modifies Repr()
      ensures Valid() && Repr() == old(Repr()) && Rest() == old(Rest())
      ensures Abs() == S.JoinOnly(old(Abs()), t)
    {
      hide Queues, Valid, Repr;
      var prio := tcb[t].prio;
      PushBack(prio, t);
      MaskSet(prio);
    }

    method RqJoin(t: Tid)
      requires Valid() && S.Shape(Abs()) && t in tcb
      requires forall p | 0 <= p < S.PRIO_NUM :: t !in Abs().rq[p]
      modifies Repr()
      ensures Valid() && Repr() == old(Repr()) && Rest() == old(Rest())
      ensures Abs() == S.Join(old(Abs()), t)
      ensures var s, p := old(Abs()), old(tcb[t].prio);
              Abs() == s.(rq := s.rq[p := s.rq[p] + [t]], mask := s.mask + {p}, need := s.need
                || p < s.tcb[s.running].prio)
    {
      hide Queues, Valid, Repr;
      RqJoinOnly(t);
      if tcb[runningThread].prio > tcb[t].prio {
        SetNeed(true);
      }
    }

    method RqJumpOnly(t: Tid)
      requires Valid() && S.Shape(Abs()) && t in tcb
      requires forall p | 0 <= p < S.PRIO_NUM :: t !in Abs().rq[p]
      modifies Repr()
      ensures Valid() && Repr() == old(Repr()) && Rest() == old(Rest())
      ensures Abs() == S.JumpOnly(old(Abs()), t)
    {
      hide Queues, Valid, Repr;
      var prio := tcb[t].prio;
      PushFront(prio, t);
      MaskSet(prio);
    }

    method RqJump(t: Tid)
      requires Valid() && S.Shape(Abs()) && t in tcb
      requires forall p | 0 <= p < S.PRIO_NUM :: t !in Abs().rq[p]
      modifies Repr()
      ensures Valid() && Repr() == old(Repr()) && Rest() == old(Rest())
      ensures Abs() == S.Jump(old(Abs()), t)
      ensures var s, p := old(Abs()), old(tcb[t].prio);
              Abs() == s.(rq := s.rq[p := [t] + s.rq[p]], mask := s.mask + {p}, need := s.need
                || p < s.tcb[s.running].prio)
    {
      hide Queues, Valid, Repr;
      RqJumpOnly(t);
      if tcb[runningThread].prio > tcb[t].prio {
        SetNeed(true);
      }
    }

    method RqLeaveOnly(t: Tid)
      requires Valid() && S.Shape(Abs()) && t in tcb && t in Abs().rq[tcb[t].prio]
      modifies Repr()
      ensures Valid() && Repr() == old(Repr()) && Rest() == old(Rest())
      ensures Abs() == S.LeaveOnly(old(Abs()), t)
    {
      hide Queues, Valid, Repr;
      var prio := tcb[t].prio;
      Unlink(prio, t);
      var empty := IsEmpty(prio);
      if empty {
        MaskClear(prio);
      }
    }

    method RqLeave(t: Tid)
      requires Valid() && S.Shape(Abs()) && t in tcb && t in Abs().rq[tcb[t].prio]
      modifies Repr()
      ensures Valid() && Repr() == old(Repr()) && Rest() == old(Rest())
      ensures Abs() == S.Leave(old(Abs()), t)
      ensures var s, p := old(Abs()), old(tcb[t].prio);
              var q := Lists.Without(s.rq[p], t);
              Abs() == s.(rq := s.rq[p := q], mask := if q == [] then s.mask - {p} else s.mask,
                          need := s.need || t == s.running)
    {
      hide Queues, Valid, Repr;
      RqLeaveOnly(t);
      if t == runningThread {
        SetNeed(true);
      }
    }

    method HighestRqGet() returns (p: int)
      requires Valid()
      ensures Valid() && Abs() == old(Abs()) && Repr() == old(Repr()) && Rest() == old(Rest())
      ensures p == S.Highest(Abs())
    {
      p := rqMask.Scan(1, 1);
    }

    /** next_thread_pick; the scan must find a bit, since the C code indexes the queues with whatever it returns. */
    method NextThreadPick() returns (next: Tid)
      requires Valid() && S.Shape(Abs()) && S.Dispatch(Abs()).Some?
      ensures Valid() && Abs() == old(Abs()) && Repr() == old(Repr()) && Rest() == old(Rest())
      ensures next == S.Dispatch(Abs()).value.running && next in tcb
    {
      var prio := HighestRqGet();
      next := First(prio);
    }

    method MainSchedule()
      requires Valid() && S.Shape(Abs()) && S.Queued(Abs()) && S.MainSchedule(Abs()).Some?
      modifies Repr()
      ensures Valid() && Repr() == old(Repr()) && Rest() == old(Rest())
      ensures S.MainSchedule(old(Abs())) == Some(Abs())
      ensures old(S.Inv(Abs())) ==> if old(needSchedule) then S.Rotated(old(Abs()), Abs()) else Abs() == old(Abs())
    {
      hide S.Rotated, S.QueuedBut, Queues, S.Highest, S.Expire, Valid, Repr;
      var cur := runningThread;
      if S.Inv(Abs()) {
        S.MainScheduleKeeps(Abs());
      }
      if needSchedule {
        SetNeed(false);
        if tcb[cur].status.Running? {
          Demote(cur);
        }
        var next := NextThreadPick();
        SetTcb(next, tcb[next].(status := S.Running));
        SetRunning(next);
      }
    }

    /** The branch of main_schedule taken when the running thread only lost its slice. */
    method Demote(cur: Tid)
      requires Valid() && S.Shape(Abs()) && cur == runningThread && S.Queued(Abs()) && S.Live(Abs(), cur)
      modifies Repr()
      ensures Valid() && Repr() == old(Repr()) && Rest() == old(Rest())
      ensures Abs() == S.Expire(old(Abs())) && S.Shape(Abs())
    {
      hide S.QueuedBut, Queues, Valid, Repr, S.LeaveOnly, S.JoinOnly, S.Expire;
      ghost var s0 := Abs();
      DemotionSteps(s0);
      InItsQueue(s0, cur);
      RqLeaveOnly(cur);
      SetTcb(cur, tcb[cur].(prio := (tcb[cur].prio + 1) % S.PRIO_NUM));
      RqJoinOnly(cur);
      SetTcb(cur, tcb[cur].(ticks := S.TicksGet(tcb[cur].prio), status := S.Ready));
    }

    /** thread_block with interrupts off, up to the point where the next thread is loaded. */
    method ThreadBlock(status: S.Status)
      requires Valid() && S.Inv(Abs()) && !status.Running? && !status.Ready?
      requires S.Block(Abs(), status).Some?
      modifies Repr()
      ensures Valid() && Repr() == old(Repr()) && Rest() == old(Rest())
      ensures S.Block(old(Abs()), status) == Some(Abs()) && S.GaveUp(old(Abs()), Abs(), status)
    {
      hide S.QueuedBut, Queues, Valid, Repr, S.LeaveOnly, S.MainSchedule, S.GaveUp;
      ghost var s0 := Abs();
      S.BlockKeeps(s0, status);
      var cur := runningThread;
      BlockSteps(s0, status);
      SetTcb(cur, tcb[cur].(status := status));
      RqLeave(cur);
      MainSchedule();
    }

    /** thread_unblock; the assertion on the status is the caller's obligation here. */
    method ThreadUnblock(t: Tid)
      requires Valid() && S.Inv(Abs()) && t in tcb
               && (tcb[t].status.Blocked? || tcb[t].status.Waiting? || tcb[t].status.Hanging?)
      modifies Repr()
      ensures Valid() && Repr() == old(Repr()) && Rest() == old(Rest())
      ensures Abs() == S.Unblock(old(Abs()), t) && S.WokenUp(old(Abs()), Abs(), t)
    {
      hide S.QueuedBut, Queues, Valid, Repr, S.WokenUp;
      S.UnblockKeeps(Abs(), t);
      NotLiveNotQueued(Abs(), t);
      SetTcb(t, tcb[t].(status := S.Ready));
      RqJump(t);
    }

    /** intr_timer_handler */
    method TimerHandler()
      requires Valid() && S.Shape(Abs())
      modifies Repr()
      ensures Valid() && Repr() == old(Repr()) && Rest() == old(Rest())
      ensures Abs() == S.TimerHandler(old(Abs()))
    {
      hide Queues, Valid, Repr;
      if tcb[runningThread].ticks == 0 {
        SetNeed(true);
      } else {
        SetTcb(runningThread, tcb[runningThread].(ticks := tcb[runningThread].ticks - 1));
      }
    }

    /** thread_run for a thread whose control block is new: its tag is linked nowhere yet. */
    method ThreadRun(t: Tid, prio: nat, tag: Lists.ListElem)
      requires Valid() && S.Inv(Abs()) && t !in tcb && prio < S.PRIO_NUM
      requires tag !in Lists.Footprint(lists) && tag !in entry
      modifies Repr(), tag
      ensures Valid() && Repr() == old(Repr()) + {tag} && Rest() == (old(Rest().0), old(readyTag)[t := tag])
      ensures Abs() == S.Create(old(Abs()), t, prio) && S.CameIn(old(Abs()), Abs(), t, prio)
    {
      hide S.QueuedBut, Queues, Repr, S.CameIn;
      S.CreateKeeps(Abs(), t, prio);
      NotLiveNotQueued(Abs(), t);
      Register(t, S.Tcb(S.Ready, prio, S.TicksGet(prio)), tag);
      hide Valid;
      RqJoin(t);
    }

    /** idle_thread_make: the code that is running becomes the first thread, in the lowest ready queue. */
    method IdleThreadMake(idle: Tid, tag: Lists.ListElem)
      requires Valid() && tcb == map[] && !needSchedule && Abs().mask == {}
      requires forall p | 0 <= p < S.PRIO_NUM :: Abs().rq[p] == []
      requires tag !in Lists.Footprint(lists) && tag !in entry
      modifies Repr(), tag
      ensures Valid() && Repr() == old(Repr()) + {tag} && Rest() == (old(Rest().0), old(readyTag)[idle := tag])
      ensures Abs() == P.Boot(idle)
    {
      hide Queues, Repr, Rest, S.Join, P.Boot, Lists.Footprint;
      FirstThread(Abs(), idle);
      hide Valid;
      SetRunning(idle);
      Register(idle, S.Tcb(S.Running, 31, S.TicksGet(31)), tag);
      RqJoin(idle);
    }

    method Register(t: Tid, c: S.Tcb, tag: Lists.ListElem)
      requires Valid() && t !in tcb && tag !in Lists.Footprint(lists) && tag !in entry
      modifies this
      ensures Valid() && Repr() == old(Repr()) + {tag} && Rest() == (old(Rest().0), old(readyTag)[t := tag])
      ensures Abs() == old(Abs()).(tcb := old(Abs()).tcb[t := c])
    {
      hide Lists.Chain, Queues, Tagged, Others, Separate;
      TagAdded(rq, lists, entry, readyTag, t, tag);
      tcb, readyTag, entry := tcb[t := c], readyTag[t := tag], entry[tag := t];
    }
  }

  lemma TagAdded(rq: seq<Lists.List>, lists: Lists.Family, entry: Entry, tags: Tags, t: Tid, tag: Lists.ListElem)
    requires Separate(rq, lists) && Tagged(rq, lists, entry, tags)
    requires t !in tags && tag !in entry && tag !in Lists.Footprint(lists)
    ensures Tagged(rq, lists, entry[tag := t], tags[t := tag])
    ensures Queues(rq, lists, entry[tag := t]) == Queues(rq, lists, entry)
    ensures TagSet(tags[t := tag]) == TagSet(tags) + {tag}
  {
    forall e ensures e in TagSet(tags[t := tag]) <==> e in TagSet(tags) || e == tag {
      if e in TagSet(tags) {
        var u :| u in tags && tags[u] == e;
        assert tags[t := tag][u] == e;
      }
      assert tags[t := tag][t] == tag;
    }
    forall p | 0 <= p < |rq| ensures Ids(entry[tag := t], lists[rq[p]]) == Ids(entry, lists[rq[p]]) {
      assert tag !in lists[rq[p]] by { assert tag !in Lists.Nodes(rq[p], lists[rq[p]]); }
      IdsSame(entry, lists[rq[p]], tag, t);
    }
  }

  lemma {:induction false} IdsSame(entry: Entry, s: seq<Lists.ListElem>, tag: Lists.ListElem, t: Tid)
    requires tag !in s
    ensures Ids(entry[tag := t], s) == Ids(entry, s)
  {
    if s != [] {
      IdsSame(entry, s[1..], tag, t);
    }
  }

  lemma FirstThread(s: S.Sched, idle: Tid)
    requires !s.need && s.mask == {} && s.tcb == map[] && |s.rq| == S.PRIO_NUM
    requires forall p | 0 <= p < S.PRIO_NUM :: s.rq[p] == []
    ensures var s1 := s.(running := idle, tcb := map[idle := S.Tcb(S.Running, 31, S.TicksGet(31))]);
            S.Shape(s1) && S.Join(s1, idle) == P.Boot(idle)
              && s1 == s.(running := idle, tcb := s.tcb[idle := S.Tcb(S.Running, 31, S.TicksGet(31))])
  {
    var s1 := s.(running := idle, tcb := map[idle := S.Tcb(S.Running, 31, S.TicksGet(31))]);
    var q, b := S.Join(s1, idle).rq, P.Boot(idle).rq;
    forall p | 0 <= p < S.PRIO_NUM ensures q[p] == b[p] {
      assert q[p] == if p == 31 then s.rq[p] + [idle] else s.rq[p];
    }
    assert q == b;
  }

  lemma NotLiveNotQueued(s: S.Sched, t: Tid)
    requires S.Inv(s) && !S.Live(s, t)
    ensures forall p | 0 <= p < S.PRIO_NUM :: t !in s.rq[p]
  {
  }

  lemma BlockSteps(s: S.Sched, status: S.Status)
    requires S.Inv(s) && !status.Running? && !status.Ready?
    ensures s.running in s.rq[s.tcb[s.running].prio]
    ensures var s2 := S.Leave(S.SetStatus(s, s.running, status), s.running);
            S.Shape(s2) && S.Queued(s2) && S.Block(s, status) == S.MainSchedule(s2)
  {
    hide S.QueuedBut;
    var r := s.running;
    InItsQueue(s, r);
    S.LeaveOnlyKeeps(s, r);
    S.OutMayChange(S.LeaveOnly(s, r), r, s.tcb[r].(status := status));
    var s2 := S.Leave(S.SetStatus(s, r, status), r);
    assert s2.rq == S.LeaveOnly(s, r).rq && s2.mask == S.LeaveOnly(s, r).mask;
    S.DeadIsOut(s2, r);
  }

  /** thread_prio_change */
  function PrioChange(s: S.Sched, t: S.Tid): (r: S.Sched)
    requires S.Shape(s) && t in s.tcb
    ensures S.Shape(r) && t in r.tcb
  {
    s.(tcb := s.tcb[t := s.tcb[t].(prio := (s.tcb[t].prio + 1) % S.PRIO_NUM)])
  }

  /** The demotion, statement by statement. */
  lemma DemotionSteps(s: S.Sched)
    requires S.Shape(s) && S.Queued(s)
    ensures var c, s1 := s.running, S.LeaveOnly(s, s.running);
            && c in s1.tcb && s1.running == c && s1.tcb == s.tcb && S.Shape(s1)
            && var s2 := PrioChange(s1, c);
            && (forall p | 0 <= p < S.PRIO_NUM :: c !in s2.rq[p])
            && var s3 := S.JoinOnly(s2, c);
            && s3.tcb == s2.tcb && s3.running == c && S.Shape(s3)
            && var after := s3.tcb[c].(ticks := S.TicksGet(s3.tcb[c].prio), status := S.Ready);
            && S.Expire(s) == s3.(tcb := s3.tcb[c := after])
            && S.Shape(S.Expire(s))
  {
    hide S.QueuedBut, S.LeaveOnly;
    S.LeaveOnlyKeeps(s, s.running);
    var s1 := S.LeaveOnly(s, s.running);
    LeftShape(s);
    InNoQueue(s1, s.running);
  }

  lemma LeftShape(s: S.Sched)
    requires S.Shape(s)
    ensures var s1 := S.LeaveOnly(s, s.running); S.Shape(s1) && s1.running == s.running && s1.tcb == s.tcb
  {
  }

  lemma InItsQueue(s: S.Sched, t: Tid)
    requires S.Shape(s) && S.Queued(s) && S.Live(s, t)
    ensures t in s.rq[s.tcb[t].prio]
  {
  }

  lemma InNoQueue(s: S.Sched, t: Tid)
    requires S.QueuedBut(s.rq, s.mask, s.tcb, {t})
    ensures forall p | 0 <= p < S.PRIO_NUM :: t !in s.rq[p]
  {
  }
}

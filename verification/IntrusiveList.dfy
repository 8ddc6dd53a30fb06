/** The intrusive doubly linked list with two sentinels. Links are heap pointers; the abstract value of a
    group of lists is a map from each list to the sequence of elements linked into it. */
module IntrusiveLists {

  class ListElem {
    var prev: ListElem?
    var next: ListElem?

    constructor () {
      prev, next := null, null;
    }
  }

  class List {
    const head: ListElem
    const tail: ListElem

    /** list_init */
    constructor ()
      ensures fresh(head) && fresh(tail) && Chain(Nodes(this, []))
    {
      head := new ListElem();
      tail := new ListElem();
      new;
      head.prev := null;
      head.next := tail;
      tail.prev := head;
      tail.next := null;
    }
  }

  type Family = map<List, seq<ListElem>>

  // ----- the abstraction -----

  ghost function Nodes(l: List, s: seq<ListElem>): seq<ListElem> {
    [l.head] + s + [l.tail]
  }

  ghost function At(c: seq<ListElem>, i: nat): ListElem
    requires i < |c|
  {
    c[i]
  }

  ghost function Node(fam: Family, l: List, i: nat): ListElem
    requires l in fam && i < |fam[l]| + 2
  {
    Nodes(l, fam[l])[i]
  }

  ghost predicate Distinct<T>(s: seq<T>) {
    forall i, j | 0 <= i < j < |s| :: s[i] != s[j]
  }

  /** The nodes are linked both ways, in order, and the ends point nowhere. */
  ghost predicate Chain(c: seq<ListElem>)
    reads c
  {
    && Distinct(c)
    && Links(c)
  }

  ghost predicate Links(c: seq<ListElem>)
    reads c
  {
    && (forall i {:trigger c[i].next} | 0 <= i < |c| :: c[i].next == if i + 1 < |c| then c[i + 1] else null)
    && (forall i {:trigger c[i].prev} | 0 <= i < |c| :: c[i].prev == if i > 0 then c[i - 1] else null)
  }

  ghost function Footprint(fam: Family): set<ListElem> {
    set l, e | l in fam && e in Nodes(l, fam[l]) :: e
  }

  /** Every list of the family holds its sequence, and no node belongs to two lists. */
  ghost predicate Holds(fam: Family)
    reads Footprint(fam)
  {
    && (forall l | l in fam :: (forall x | x in Nodes(l, fam[l]) :: x in Footprint(fam)) && Chain(Nodes(l, fam[l])))
    && Apart(fam)
  }

  ghost predicate Apart(fam: Family) {
    forall l, m, e | l in fam && m in fam && e in Nodes(l, fam[l]) && e in Nodes(m, fam[m]) :: l == m
  }

  lemma NodesInFootprint(fam: Family, l: List)
    requires l in fam
    ensures l.head in Footprint(fam) && l.tail in Footprint(fam)
    ensures forall i | 0 <= i < |fam[l]| + 2 :: Node(fam, l, i) in Footprint(fam)
  {
    var c := Nodes(l, fam[l]);
    assert forall x | x in c :: x in Footprint(fam);
    assert c[0] == l.head && c[|c| - 1] == l.tail;
  }

  ghost predicate Linked(fam: Family, e: ListElem) {
    exists l | l in fam :: e in fam[l]
  }

  function Without<T(==)>(s: seq<T>, e: T): (r: seq<T>)
    ensures e !in s ==> r == s
    ensures forall x | x in r :: x in s && x != e
    ensures forall x | x in s && x != e :: x in r
  {
    if s == [] then [] else if s[0] == e then Without(s[1..], e) else [s[0]] + Without(s[1..], e)
  }

  lemma {:induction false} WithoutAt<T>(s: seq<T>, k: nat)
    requires k < |s| && Distinct(s)
    ensures Without(s, s[k]) == Del(s, k)
  {
    assert s == [s[0]] + s[1..];
    if k > 0 {
      TailDistinct(s);
      WithoutAt(s[1..], k - 1);
      assert [s[0]] + Del(s[1..], k - 1) == Del(s, k);
    }
  }

  lemma TailDistinct<T>(s: seq<T>)
    requires |s| > 0 && Distinct(s)
    ensures Distinct(s[1..]) && s[0] !in s[1..]
  {
  }

  /** The family with `e` taken out of whichever list has it. */
  ghost function Unlinked(fam: Family, e: ListElem): Family {
    map l | l in fam :: Without(fam[l], e)
  }

  // ----- splicing one chain -----

  function Ins<T>(c: seq<T>, k: nat, e: T): (d: seq<T>)
    requires k <= |c|
    ensures |d| == |c| + 1 && forall i | 0 <= i < |d| :: d[i] == if i < k then c[i] else if i == k then e else c[i - 1]
    ensures forall x | x in d :: x == e || x in c
  {
    c[..k] + [e] + c[k..]
  }

  function Del<T>(c: seq<T>, k: nat): (d: seq<T>)
    requires k < |c|
    ensures |d| == |c| - 1 && forall i | 0 <= i < |d| :: d[i] == if i < k then c[i] else c[i + 1]
    ensures forall x | x in d :: x in c
  {
    c[..k] + c[k + 1..]
  }

  lemma InsDistinct<T>(c: seq<T>, k: nat, e: T)
    requires k <= |c| && Distinct(c) && e !in c
    ensures Distinct(Ins(c, k, e))
  {
  }

  lemma DelDistinct<T>(c: seq<T>, k: nat)
    requires k < |c| && Distinct(c)
    ensures Distinct(Del(c, k))
  {
  }

  /** Every link of the chain is right except possibly the pair between nodes `i` and `j`. */
  ghost predicate LinksBut(c: seq<ListElem>, i: int, j: int)
    reads c
  {
    && (forall n {:trigger c[n].next} | 0 <= n < |c| && n != i :: c[n].next == if n + 1 < |c| then c[n + 1] else null)
    && (forall n {:trigger c[n].prev} | 0 <= n < |c| && n != j :: c[n].prev == if n > 0 then c[n - 1] else null)
  }

  lemma InsLinks(c: seq<ListElem>, k: nat, e: ListElem)
    requires 0 < k < |c| && LinksBut(c, k - 1, k)
    requires e.prev == c[k - 1] && e.next == c[k] && c[k - 1].next == e && c[k].prev == e
    ensures Links(Ins(c, k, e))
  {
  }

  lemma DelLinks(c: seq<ListElem>, k: nat)
    requires 0 < k < |c| - 1 && LinksBut(c, k - 1, k + 1)
    requires c[k - 1].next == c[k + 1] && c[k + 1].prev == c[k - 1]
    ensures Links(Del(c, k))
  {
  }

  /** Changing one list keeps the family: its new nodes are old ones of its own, or an element that was in no list. */
  lemma ListReplaced(fam: Family, l: List, s: seq<ListElem>, e: ListElem)
    requires l in fam && Apart(fam)
    requires Chain(Nodes(l, s))
    requires forall m | m in fam && m != l :: Chain(Nodes(m, fam[m]))
    requires e in Nodes(l, fam[l]) || e !in Footprint(fam)
    requires forall x | x in Nodes(l, s) :: x == e || x in Nodes(l, fam[l])
    ensures Holds(fam[l := s])
  {
  }

  // ----- the operations -----

  lemma NodesShift(l: List, s: seq<ListElem>, k: nat, e: ListElem)
    requires k <= |s|
    ensures Nodes(l, Ins(s, k, e)) == Ins(Nodes(l, s), k + 1, e)
    ensures k < |s| ==> Nodes(l, Del(s, k)) == Del(Nodes(l, s), k + 1)
  {
  }

  /** The nodes of the other lists are none of these. */
  lemma OthersAvoid(fam: Family, l: List, e: ListElem)
    requires l in fam && Apart(fam) && (e in Nodes(l, fam[l]) || e !in Footprint(fam))
    ensures forall m, i | m in fam && m != l && 0 <= i < |fam[m]| + 2 ::
              Node(fam, m, i) != e && Node(fam, m, i) !in Nodes(l, fam[l])
  {
  }

  /** list_insert_before: `e2` goes in front of `e1`, whatever chain `e1` is in (here node `k` of `c`). */
  method InsertBefore(e1: ListElem, e2: ListElem, ghost c: seq<ListElem>, ghost k: nat)
    requires Chain(c) && 0 < k < |c| && e1 == c[k] && e2 !in c
    modifies At(c, k), At(c, k - 1), e2
    ensures Chain(Ins(c, k, e2))
  {
    assert c[k].prev == c[k - 1];
    e1.prev.next := e2;
    e2.prev := e1.prev;
    e2.next := e1;
    e1.prev := e2;
    InsDistinct(c, k, e2);
    InsLinks(c, k, e2);
  }

  method PushFront(l: List, e: ListElem, ghost fam: Family)
    requires Holds(fam) && l in fam && e !in Footprint(fam)
    modifies l.head, Node(fam, l, 1), e
    ensures Holds(fam[l := [e] + fam[l]])
  {
    OthersAvoid(fam, l, e);
    assert Nodes(l, fam[l])[0].next == Node(fam, l, 1);
    InsertBefore(l.head.next, e, Nodes(l, fam[l]), 1);
    forall m | m in fam && m != l ensures Chain(Nodes(m, fam[m])) {
      assert old(Chain(Nodes(m, fam[m])));
      assert forall i | 0 <= i < |fam[m]| + 2 :: Nodes(m, fam[m])[i] == Node(fam, m, i);
    }
    assert [e] + fam[l] == Ins(fam[l], 0, e);
    NodesShift(l, fam[l], 0, e);
    ListReplaced(fam, l, [e] + fam[l], e);
  }

  method PushBack(l: List, e: ListElem, ghost fam: Family)
    requires Holds(fam) && l in fam && e !in Footprint(fam)
    modifies l.tail, Node(fam, l, |fam[l]|), e
    ensures Holds(fam[l := fam[l] + [e]])
  {
    OthersAvoid(fam, l, e);
    ghost var n := |fam[l]|;
    assert Node(fam, l, n + 1) == l.tail;
    InsertBefore(l.tail, e, Nodes(l, fam[l]), n + 1);
    forall m | m in fam && m != l ensures Chain(Nodes(m, fam[m])) {
      assert old(Chain(Nodes(m, fam[m])));
      assert forall i | 0 <= i < |fam[m]| + 2 :: Nodes(m, fam[m])[i] == Node(fam, m, i);
    }
    assert fam[l] + [e] == Ins(fam[l], n, e);
    NodesShift(l, fam[l], n, e);
    ListReplaced(fam, l, fam[l] + [e], e);
  }

  /** list_remove does not know which list it edits: one call takes `e` out of the one list that has it. */
  method Remove(e: ListElem, ghost fam: Family)
    requires Holds(fam) && Linked(fam, e)
    modifies e.prev, e.next
    ensures Holds(Unlinked(fam, e))
  {
    ghost var l, k := Where(fam, e);
    OthersAvoid(fam, l, e);
    assert Node(fam, l, k + 1).prev == Node(fam, l, k) && Node(fam, l, k + 1).next == Node(fam, l, k + 2);
    Bypass(e, Nodes(l, fam[l]), k + 1);
    forall m | m in fam && m != l ensures Chain(Nodes(m, fam[m])) {
      assert old(Chain(Nodes(m, fam[m])));
      assert forall i | 0 <= i < |fam[m]| + 2 :: Nodes(m, fam[m])[i] == Node(fam, m, i);
    }
    NodesShift(l, fam[l], k, e);
    ListReplaced(fam, l, Del(fam[l], k), e);
  }

  /** The two pointer writes of list_remove, on the chain that has `e`. */
  method Bypass(e: ListElem, ghost c: seq<ListElem>, ghost k: nat)
    requires Chain(c) && 0 < k < |c| - 1 && e == c[k]
    modifies At(c, k - 1), At(c, k + 1)
    ensures Chain(Del(c, k))
  {
    assert c[k].prev == c[k - 1] && c[k].next == c[k + 1];
    e.prev.next := e.next;
    e.next.prev := e.prev;
    DelDistinct(c, k);
    DelLinks(c, k);
  }

  /** A linked element sits at one place of one list, and unlinking it deletes that place. */
  lemma Where(fam: Family, e: ListElem) returns (l: List, k: nat)
    requires Holds(fam) && Linked(fam, e)
    ensures l in fam && k < |fam[l]| && fam[l][k] == e
    ensures Unlinked(fam, e) == fam[l := Del(fam[l], k)]
  {
    l :| l in fam && e in fam[l];
    k :| 0 <= k < |fam[l]| && fam[l][k] == e;
    var c := Nodes(l, fam[l]);
    assert Distinct(fam[l]) by {
      forall i, j | 0 <= i < j < |fam[l]| ensures fam[l][i] != fam[l][j] { assert c[i + 1] != c[j + 1]; }
    }
    WithoutAt(fam[l], k);
    OthersAvoid(fam, l, e);
  }

  /** list_pop_front; on an empty list the C code would follow a null link, so the list must not be empty. */
  method PopFront(l: List, ghost fam: Family) returns (ret: ListElem)
    requires Holds(fam) && l in fam && fam[l] != []
    modifies l.head, Node(fam, l, 2)
    ensures ret == fam[l][0]
    ensures Holds(Unlinked(fam, ret)) && Unlinked(fam, ret) == fam[l := fam[l][1..]]
  {
    ghost var c := Nodes(l, fam[l]);
    assert c[0].next == c[1] && c[1] == fam[l][0] && c[1].prev == c[0] && c[1].next == c[2];
    ret := l.head.next;
    OnlyThere(fam, l, ret);
    Remove(ret, fam);
  }

  lemma OnlyThere(fam: Family, l: List, e: ListElem)
    requires Holds(fam) && l in fam && fam[l] != [] && e == fam[l][0]
    ensures Linked(fam, e) && Unlinked(fam, e) == fam[l := fam[l][1..]]
  {
    var m, k := Where(fam, e);
    var c := Nodes(l, fam[l]);
    assert e in Nodes(m, fam[m]) && e in c;
    assert c[1] != c[k + 1] || k == 0;
    assert Del(fam[l], 0) == fam[l][1..];
  }

  lemma UnlinkedFrom(fam: Family, l: List, e: ListElem)
    requires Holds(fam) && l in fam && e in fam[l]
    ensures Linked(fam, e) && Unlinked(fam, e) == fam[l := Without(fam[l], e)]
  {
    forall m | m in fam && m != l ensures e !in fam[m] {
      assert e in fam[m] ==> e in Nodes(m, fam[m]);
      assert e in Nodes(l, fam[l]);
    }
  }

  lemma NeighboursInFootprint(fam: Family, e: ListElem)
    requires Holds(fam) && Linked(fam, e)
    ensures e.prev != null && e.next != null && e.prev in Footprint(fam) && e.next in Footprint(fam)
  {
    var l, k := Where(fam, e);
    NodesInFootprint(fam, l);
    var c := Nodes(l, fam[l]);
    assert c[k + 1].prev == Node(fam, l, k) && c[k + 1].next == Node(fam, l, k + 2);
  }

  method FirstElem(l: List, ghost fam: Family) returns (r: ListElem?)
    requires Holds(fam) && l in fam
    ensures r == if fam[l] == [] then l.tail else fam[l][0]
  {
    ghost var c := Nodes(l, fam[l]);
    assert c[0].next == c[1];
    r := l.head.next;
  }

  method Empty(l: List, ghost fam: Family) returns (r: bool)
    requires Holds(fam) && l in fam
    ensures r <==> fam[l] == []
  {
    ghost var c := Nodes(l, fam[l]);
    assert c[0].next == c[1] && c[|c| - 1] == l.tail;
    r := l.head.next == l.tail;
  }

  method Find(l: List, e: ListElem, ghost fam: Family) returns (r: bool)
    requires Holds(fam) && l in fam && e != l.tail && e != l.head
    ensures r <==> e in fam[l]
  {
    ghost var c := Nodes(l, fam[l]);
    ghost var k := 1;
    assert c[0].next == c[1];
    var tmp := l.head.next;
    while tmp != l.tail
      invariant 1 <= k < |c| && tmp == c[k]
      invariant e !in c[..k]
      decreases |c| - k
    {
      if tmp == e {
        assert k < |c| - 1;
        return true;
      }
      assert c[k].next == c[k + 1];
      tmp := tmp.next;
      k := k + 1;
    }
    assert k == |c| - 1 by { assert c[|c| - 1] == l.tail; }
    assert c[..k] == [l.head] + fam[l];
    return false;
  }

  method Len(l: List, ghost fam: Family) returns (cnt: nat)
    requires Holds(fam) && l in fam
    ensures cnt == |fam[l]|
  {
    ghost var c := Nodes(l, fam[l]);
    assert c[0].next == c[1];
    var tmp := l.head.next;
    cnt := 0;
    while tmp != l.tail
      invariant cnt + 1 < |c| && tmp == c[cnt + 1]
      decreases |c| - cnt
    {
      assert c[cnt + 1].next == c[cnt + 2];
      tmp := tmp.next;
      cnt := cnt + 1;
    }
    assert c[|c| - 1] == l.tail;
  }
}

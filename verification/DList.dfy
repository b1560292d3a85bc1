/**
  The intrusive circular doubly-linked list. A ring is the sequence of its
  entries, starting at the list head; every operation rewrites a few pointers and
  is proved to perform the matching operation on that sequence.
 */
module DList {
  class Entry {
    var next: Entry
    var prev: Entry
    const val: int

    /** A new entry is a list head of its own. */
    constructor (v: int)
      ensures val == v && next == this && prev == this
    {
      val := v;
      next := this;
      prev := this;
    }
  }

  predicate Distinct(ns: seq<Entry>) {
    forall i, j :: 0 <= i < j < |ns| ==> ns[i] != ns[j]
  }

  function Succ(ns: seq<Entry>, i: nat): Entry
    requires i < |ns|
  {
    if i + 1 < |ns| then ns[i + 1] else ns[0]
  }

  predicate Linked(ns: seq<Entry>, i: nat)
    requires i < |ns|
    reads ns
  {
    ns[i].next == Succ(ns, i) && Succ(ns, i).prev == ns[i]
  }

  predicate Ring(ns: seq<Entry>)
    reads ns
  {
    |ns| > 0 && Distinct(ns) && forall i :: 0 <= i < |ns| ==> Linked(ns, i)
  }

  function Inserted(ns: seq<Entry>, k: nat, item: Entry): (ms: seq<Entry>)
    requires k < |ns|
    ensures |ms| == |ns| + 1 && ms[k] == ns[k] && ms[k + 1] == item
    ensures forall i :: 0 <= i < |ns| ==> ms[if i <= k then i else i + 1] == ns[i]
  {
    ns[..k + 1] + [item] + ns[k + 1..]
  }

  function Removed(ns: seq<Entry>, k: nat): (ms: seq<Entry>)
    requires k < |ns|
    ensures |ms| == |ns| - 1
    ensures forall i :: 0 <= i < |ms| ==> ms[i] == ns[if i < k then i else i + 1]
  {
    ns[..k] + ns[k + 1..]
  }

  /** dlist_init */
  method InitEntry(item: Entry)
    modifies item
    ensures Ring([item])
  {
    item.next := item;
    item.prev := item;
  }

  /** dlist_insert_after: the ring gains the item behind the given entry. */
  method InsertAfter(item: Entry, at: Entry, ghost ns: seq<Entry>, ghost k: nat)
    requires Ring(ns) && k < |ns| && at == ns[k] && item !in ns
    modifies item, at, at.next
    ensures Ring(Inserted(ns, k, item)) && at.next == item && item.prev == at
  {
    assert Linked(ns, k);
    item.next := at.next;
    item.prev := at;
    at.next.prev := item;
    at.next := item;
    ghost var ms := Inserted(ns, k, item);
    forall i | 0 <= i < |ms| ensures Linked(ms, i) {
      assert i < k ==> old(Linked(ns, i));
      assert i > k + 1 ==> old(Linked(ns, i - 1));
    }
  }

  /** dlist_insert_before: on the list head this is the tail of the list. */
  method InsertBefore(item: Entry, at: Entry, ghost ns: seq<Entry>, ghost k: nat)
    requires Ring(ns) && k < |ns| && at == ns[k] && item !in ns
    modifies item, at, at.prev
    ensures Ring(if k == 0 then ns + [item] else Inserted(ns, k - 1, item)) && at.prev == item && item.next == at
  {
    ghost var j := if k == 0 then |ns| - 1 else k - 1;
    assert Linked(ns, j);
    InsertAfter(item, at.prev, ns, j);
    assert k == 0 ==> Inserted(ns, j, item) == ns + [item];
    ghost var ms := if k == 0 then ns + [item] else Inserted(ns, k - 1, item);
    assert Linked(ms, if k == 0 then |ns| else k);
  }

  /** dlist_remove: the removed entry keeps its own pointers. A lone entry is
      removed from a ring of nobody else, which changes nothing. */
  method Remove(item: Entry, ghost ns: seq<Entry>, ghost k: nat)
    requires Ring(ns) && k < |ns| && item == ns[k]
    modifies item.prev, item.next
    ensures Ring(if |ns| == 1 then ns else Removed(ns, k))
    ensures item.next == old(item.next) && item.prev == old(item.prev)
  {
    ghost var p := if k == 0 then |ns| - 1 else k - 1;
    assert Linked(ns, k) && Linked(ns, p);
    item.prev.next := item.next;
    item.next.prev := item.prev;
    ghost var ms := Removed(ns, k);
    if |ns| == 1 {
      assert Linked(ns, 0);
    } else {
      forall i | 0 <= i < |ms| ensures Linked(ms, i) {
        assert i < k ==> old(Linked(ns, i));
        assert i >= k ==> old(Linked(ns, i + 1));
      }
    }
  }

  /** dlist_remove_init: the removed entry becomes an empty list. */
  method RemoveInit(item: Entry, ghost ns: seq<Entry>, ghost k: nat)
    requires Ring(ns) && k < |ns| && item == ns[k]
    modifies item, item.prev, item.next
    ensures Ring([item]) && (|ns| > 1 ==> Ring(Removed(ns, k)))
  {
    Remove(item, ns, k);
    InitEntry(item);
  }

  function Spliced(a: seq<Entry>, k: nat, b: seq<Entry>): (ms: seq<Entry>)
    requires k < |a| && |b| > 0
    ensures |ms| == |a| + |b| - 1
    ensures forall i :: 0 <= i < |a| ==> ms[if i <= k then i else i + |b| - 1] == a[i]
    ensures forall j :: 1 <= j < |b| ==> ms[k + j] == b[j]
  {
    a[..k + 1] + b[1..] + a[k + 1..]
  }

  /** dlist_splice_head, called with the list head or - for splicing at the tail -
      with the last entry: the other list's entries follow it, and the other
      list is empty. */
  method SpliceAfter(at: Entry, other: Entry, ghost a: seq<Entry>, ghost k: nat, ghost b: seq<Entry>)
    requires Ring(a) && Ring(b) && k < |a| && at == a[k] && other == b[0]
    requires forall x :: x in a ==> x !in b
    modifies at, at.next, other, other.next, other.prev
    ensures Ring(Spliced(a, k, b)) && Ring([other])
  {
    assert Linked(b, 0) && Linked(b, |b| - 1) && Linked(a, k);
    ghost var ms := Spliced(a, k, b);
    if other.next == other {
      assert b == [other];
      assert ms == a;
      return;
    }
    at.next.prev := other.prev;
    other.prev.next := at.next;
    at.next := other.next;
    at.next.prev := at;
    InitEntry(other);
    SplicedAt(a, k, b);
    Disjoint(a, b);
    forall i | 0 <= i < |ms| ensures Linked(ms, i) {
      if i < k {
        assert old(Linked(a, i));
      } else if k < i < k + |b| - 1 {
        assert old(Linked(b, i - k));
      } else if i >= k + |b| {
        assert old(Linked(a, i - |b| + 1));
      }
    }
  }

  lemma Disjoint(a: seq<Entry>, b: seq<Entry>)
    requires forall x :: x in a ==> x !in b
    ensures forall i, j :: 0 <= i < |a| && 0 <= j < |b| ==> a[i] != b[j]
  {
    forall i, j | 0 <= i < |a| && 0 <= j < |b| ensures a[i] != b[j] {
      assert a[i] in a && b[j] in b;
    }
  }

  lemma SplicedAt(a: seq<Entry>, k: nat, b: seq<Entry>)
    requires Distinct(a) && Distinct(b) && k < |a| && |b| > 0 && forall x :: x in a ==> x !in b
    ensures var ms := Spliced(a, k, b);
            && Distinct(ms) && |ms| == |a| + |b| - 1
            && (forall i :: 0 <= i <= k ==> ms[i] == a[i])
            && (forall i :: k < i < k + |b| ==> ms[i] == b[i - k])
            && (forall i :: k + |b| <= i < |ms| ==> ms[i] == a[i - |b| + 1])
  {
    var ms := Spliced(a, k, b);
    assert forall i :: k < i < k + |b| ==> ms[i] == b[i - k] && ms[i] in b;
    assert forall i :: 0 <= i <= k ==> ms[i] == a[i] && ms[i] in a;
    assert forall i :: k + |b| <= i < |ms| ==> ms[i] == a[i - |b| + 1] && ms[i] in a;
  }

  /** dlist_splice_head */
  method SpliceHead(head: Entry, other: Entry, ghost a: seq<Entry>, ghost b: seq<Entry>)
    requires Ring(a) && Ring(b) && head == a[0] && other == b[0]
    requires forall x :: x in a ==> x !in b
    modifies head, head.next, other, other.next, other.prev
    ensures Ring([head] + b[1..] + a[1..]) && Ring([other])
  {
    SpliceAfter(head, other, a, 0, b);
    assert Spliced(a, 0, b) == [head] + b[1..] + a[1..];
  }

  /** dlist_splice_tail */
  method SpliceTail(head: Entry, other: Entry, ghost a: seq<Entry>, ghost b: seq<Entry>)
    requires Ring(a) && Ring(b) && head == a[0] && other == b[0]
    requires forall x :: x in a ==> x !in b
    modifies head, head.prev, other, other.next, other.prev
    ensures Ring(a + b[1..]) && Ring([other])
  {
    assert Linked(a, |a| - 1);
    SpliceAfter(head.prev, other, a, |a| - 1, b);
    assert Spliced(a, |a| - 1, b) == a + b[1..];
  }

  // ---------------------------------------------------------------- searching and ordering

  /** dlist_find_first_match */
  method FindFirstMatch(head: Entry, match_: int -> bool, ghost ns: seq<Entry>)
    returns (found: bool, item: Entry, ghost k: nat)
    requires Ring(ns) && head == ns[0]
    ensures 0 < k <= |ns| && (forall j :: 0 < j < k ==> !match_(ns[j].val))
    ensures found <==> k < |ns|
    ensures found ==> item == ns[k] && match_(item.val)
    ensures found <==> exists x :: x in ns[1..] && match_(x.val)
    ensures found ==> item in ns[1..] && match_(item.val)
  {
    assert Linked(ns, 0);
    item := head.next;
    k := 1;
    while item != head
      invariant 0 < k <= |ns| && item == (if k < |ns| then ns[k] else head)
      invariant forall j :: 0 < j < k ==> !match_(ns[j].val)
      decreases |ns| - k
    {
      if match_(item.val) {
        assert item == ns[1..][k - 1];
        return true, item, k;
      }
      assert Linked(ns, k);
      item := item.next;
      k := k + 1;
    }
    return false, item, k;
  }

  /** dlist_remove_first_match */
  method RemoveFirstMatch(head: Entry, match_: int -> bool, ghost ns: seq<Entry>)
    returns (found: bool, item: Entry, ghost k: nat)
    requires Ring(ns) && head == ns[0]
    modifies ns
    ensures 0 < k <= |ns| && (forall j :: 0 < j < k ==> !match_(ns[j].val))
    ensures found <==> k < |ns|
    ensures found ==> item == ns[k] && match_(item.val) && Ring(Removed(ns, k))
    ensures !found ==> Ring(ns)
  {
    found, item, k := FindFirstMatch(head, match_, ns);
    if found {
      assert Linked(ns, k) && Linked(ns, k - 1);
      Remove(item, ns, k);
    }
  }

  /** Where an ordered insertion goes: before the first value that belongs after it. */
  function Place(vs: seq<int>, order: (int, int) -> bool, v: int): (k: nat)
    ensures k <= |vs| && (k < |vs| ==> order(vs[k], v)) && (forall j :: 0 <= j < k ==> !order(vs[j], v))
  {
    if vs == [] || order(vs[0], v) then 0 else 1 + Place(vs[1..], order, v)
  }

  lemma PlaceUnique(vs: seq<int>, order: (int, int) -> bool, v: int, k: nat)
    requires k <= |vs| && (k < |vs| ==> order(vs[k], v)) && forall j :: 0 <= j < k ==> !order(vs[j], v)
    ensures k == Place(vs, order, v)
  {
    var p := Place(vs, order, v);
    assert p >= k;
  }

  function Values(ns: seq<Entry>): seq<int> {
    seq(|ns|, i requires 0 <= i < |ns| => ns[i].val)
  }

  /** dlist_insert_order */
  method InsertOrder(head: Entry, order: (int, int) -> bool, item: Entry, ghost ns: seq<Entry>) returns (ghost k: nat)
    requires Ring(ns) && head == ns[0] && item !in ns
    modifies ns, item
    ensures k == Place(Values(ns[1..]), order, item.val)
    ensures Ring(ns[..k + 1] + [item] + ns[k + 1..])
  {
    var found, at, j := FindFirstMatch(head, v => order(v, item.val), ns);
    k := j - 1;
    ghost var vs := Values(ns[1..]);
    assert forall i :: 0 <= i < |vs| ==> vs[i] == ns[i + 1].val;
    PlaceUnique(vs, order, item.val, k);
    if found {
      assert Linked(ns, k);
      InsertBefore(item, at, ns, j);
      assert Inserted(ns, k, item) == ns[..k + 1] + [item] + ns[k + 1..];
    } else {
      assert Linked(ns, |ns| - 1);
      InsertBefore(item, head, ns, 0);
      assert ns + [item] == ns[..k + 1] + [item] + ns[k + 1..];
    }
  }

  ghost predicate StrictOrder(order: (int, int) -> bool) {
    && (forall x :: !order(x, x))
    && (forall x, y, z :: order(x, y) && order(y, z) ==> order(x, z))
  }

  /** No value stands before one it belongs after. */
  predicate Sorted(vs: seq<int>, order: (int, int) -> bool) {
    forall i, j :: 0 <= i < j < |vs| ==> !order(vs[i], vs[j])
  }

  lemma Transitive(order: (int, int) -> bool, x: int, y: int, z: int)
    requires StrictOrder(order) && order(x, y) && order(y, z)
    ensures order(x, z) && x != z
  {
  }

  /** Ordered insertion keeps a sorted list sorted, behind the values it ties with. */
  lemma InsertOrderSorted(vs: seq<int>, order: (int, int) -> bool, v: int)
    requires StrictOrder(order) && Sorted(vs, order)
    ensures var k := Place(vs, order, v); Sorted(vs[..k] + [v] + vs[k..], order)
  {
    var k := Place(vs, order, v);
    var ws := vs[..k] + [v] + vs[k..];
    forall i, j | 0 <= i < j < |ws| ensures !order(ws[i], ws[j]) {
      if i == k {
        assert ws[j] == vs[j - 1];
        if order(v, vs[j - 1]) {
          Transitive(order, vs[k], v, vs[j - 1]);
        }
      }
    }
  }

  // ---------------------------------------------------------------- safe iteration

  /** Entries the body does not remove. */
  function Kept(ns: seq<Entry>, drop: int -> bool): seq<Entry> {
    if ns == [] then []
    else Kept(ns[..|ns| - 1], drop) + if drop(ns[|ns| - 1].val) then [] else [ns[|ns| - 1]]
  }

  /** dlist_foreach_safe with a body that may remove the current entry: the loop
      ends, visits every original entry exactly once and in order, and leaves
      the entries the body kept. */
  method ForeachSafe(head: Entry, drop: int -> bool, ghost ns: seq<Entry>) returns (visited: seq<Entry>)
    requires Ring(ns) && head == ns[0]
    modifies ns
    ensures visited == ns[1..]
    ensures Ring([head] + Kept(ns[1..], drop))
  {
    assert Linked(ns, 0);
    var item := head.next;
    assert 1 < |ns| ==> Linked(ns, 1);
    var tmp := item.next;
    visited := [];
    ghost var kept, i := [], 1;
    assert [head] + kept + ns[1..] == ns;
    while item != head
      invariant Iterating(item, tmp, drop, kept, i, ns) && visited == ns[1..i]
      decreases |ns| - i
    {
      assert i < |ns|;
      visited := visited + [item];
      assert ns[1..i + 1] == ns[1..i] + [ns[i]];
      kept := Visit(item, drop, kept, i, ns);
      i := i + 1;
      item := tmp;
      tmp := After(item, [head] + kept + ns[i..], if i < |ns| then 1 + |kept| else 0);
    }
    IterationEnds(item, tmp, drop, kept, i, ns);
  }

  /** The entries before position i were visited and left the ring unless kept;
      the loop's two pointers are at i and behind it. */
  predicate Iterating(item: Entry, tmp: Entry, drop: int -> bool, kept: seq<Entry>, i: nat, ns: seq<Entry>)
    reads ns, kept
  {
    && 1 <= i <= |ns| && Distinct(ns) && kept == Kept(ns[1..i], drop)
    && (forall x :: x in kept ==> x in ns)
    && Ring([ns[0]] + kept + ns[i..])
    && (if i < |ns| then item == ns[i] && tmp == Succ(ns, i) else item == ns[0])
  }

  lemma IterationEnds(item: Entry, tmp: Entry, drop: int -> bool, kept: seq<Entry>, i: nat, ns: seq<Entry>)
    requires Iterating(item, tmp, drop, kept, i, ns) && item == ns[0]
    ensures ns[1..i] == ns[1..] && Ring([ns[0]] + Kept(ns[1..], drop))
  {
    assert i == |ns|;
    TakeAll(ns);
    AppendNone([ns[0]] + kept, ns);
  }

  lemma TakeAll(ns: seq<Entry>)
    requires ns != []
    ensures ns[1..|ns|] == ns[1..]
  {
  }

  lemma AppendNone(a: seq<Entry>, ns: seq<Entry>)
    ensures a + ns[|ns|..] == a
  {
  }

  /** One step of the iteration: the body sees the entry and may remove it. */
  method Visit(item: Entry, drop: int -> bool, ghost kept: seq<Entry>, ghost i: nat, ghost ns: seq<Entry>)
    returns (ghost kept': seq<Entry>)
    requires 1 <= i < |ns| && item == ns[i] && kept == Kept(ns[1..i], drop)
    requires (forall x :: x in kept ==> x in ns) && Ring([ns[0]] + kept + ns[i..])
    modifies ns
    ensures kept' == Kept(ns[1..i + 1], drop)
    ensures (forall x :: x in kept' ==> x in ns) && Ring([ns[0]] + kept' + ns[i + 1..])
  {
    KeptPush(ns[1..i], ns[i], drop);
    assert ns[1..i + 1] == ns[1..i] + [ns[i]];
    kept' := kept;
    ghost var rest := ns[i..];
    if drop(item.val) {
      Neighbours([ns[0]] + kept + rest, 1 + |kept|);
      assert forall x :: x in [ns[0]] + kept + rest ==> x in ns;
      RemoveBehind(item, [ns[0]] + kept, rest);
      assert rest[1..] == ns[i + 1..];
    } else {
      kept' := kept + [item];
      assert [ns[0]] + kept' + ns[i + 1..] == [ns[0]] + kept + rest;
    }
  }

  lemma Neighbours(ns: seq<Entry>, k: nat)
    requires Ring(ns) && 0 < k < |ns|
    ensures ns[k].prev in ns && ns[k].next in ns
  {
    assert Linked(ns, k - 1) && Linked(ns, k);
  }

  method RemoveBehind(item: Entry, ghost front: seq<Entry>, ghost rest: seq<Entry>)
    requires front != [] && rest != [] && item == rest[0] && Ring(front + rest)
    modifies item.prev, item.next
    ensures Ring(front + rest[1..])
  {
    Remove(item, front + rest, |front|);
    assert Removed(front + rest, |front|) == front + rest[1..];
  }

  method After(item: Entry, ghost ns: seq<Entry>, ghost k: nat) returns (tmp: Entry)
    requires Ring(ns) && k < |ns| && item == ns[k]
    ensures tmp == Succ(ns, k)
  {
    assert Linked(ns, k);
    tmp := item.next;
  }

  lemma KeptPush(ns: seq<Entry>, n: Entry, drop: int -> bool)
    ensures Kept(ns + [n], drop) == Kept(ns, drop) + if drop(n.val) then [] else [n]
  {
    assert (ns + [n])[..|ns|] == ns;
  }
}

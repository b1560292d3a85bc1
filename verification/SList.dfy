/**
  The intrusive singly-linked list with head and tail pointers, against the
  sequence of its entries.
 */
module SList {
  class Item {
    var next: Item?
    const val: int

    constructor (v: int)
      ensures val == v && next == null
    {
      val := v;
      next := null;
    }
  }

  predicate Distinct(ns: seq<Item>) {
    forall i, j :: 0 <= i < j < |ns| ==> ns[i] != ns[j]
  }

  function At(ns: seq<Item>, i: nat): Item? {
    if i < |ns| then ns[i] else null
  }

  predicate Chained(ns: seq<Item>, i: nat)
    requires i < |ns|
    reads ns
  {
    ns[i].next == At(ns, i + 1)
  }

  lemma JoinDistinct(a: seq<Item>, b: seq<Item>)
    requires Distinct(a) && Distinct(b) && forall x :: x in a ==> x !in b
    ensures Distinct(a + b) && forall i, j :: 0 <= i < |a| && 0 <= j < |b| ==> a[i] != b[j]
  {
    assert forall i :: 0 <= i < |a| ==> a[i] in a;
  }

  class List {
    var head: Item?
    var tail: Item?

    constructor ()
      ensures Holds([])
    {
      head, tail := null, null;
    }

    predicate Holds(ns: seq<Item>)
      reads this, ns
    {
      && Distinct(ns)
      && head == At(ns, 0)
      && tail == (if ns == [] then null else ns[|ns| - 1])
      && forall i :: 0 <= i < |ns| ==> Chained(ns, i)
    }

    /** slist_init */
    method Clear()
      modifies this
      ensures Holds([])
    {
      head := null;
      tail := null;
    }

    /** slist_insert_head */
    method InsertHead(item: Item, ghost ns: seq<Item>)
      requires Holds(ns) && item !in ns
      modifies this, item
      ensures Holds([item] + ns)
    {
      if head == null {
        tail := item;
        item.next := null;
      } else {
        item.next := head;
      }
      head := item;
      forall i | 0 <= i < |[item] + ns| ensures Chained([item] + ns, i) {
        assert i > 0 ==> old(Chained(ns, i - 1));
      }
    }

    /** slist_insert_tail */
    method InsertTail(item: Item, ghost ns: seq<Item>)
      requires Holds(ns) && item !in ns
      modifies this, item, tail
      ensures Holds(ns + [item])
    {
      if head == null {
        head := item;
      } else {
        tail.next := item;
      }
      item.next := null;
      tail := item;
      forall i | 0 <= i < |ns + [item]| ensures Chained(ns + [item], i) {
        assert i < |ns| ==> old(Chained(ns, i));
      }
    }

    /** slist_remove_head: null on an empty list. */
    method RemoveHead(ghost ns: seq<Item>) returns (item: Item?)
      requires Holds(ns)
      modifies this
      ensures item == At(ns, 0)
      ensures Holds(if ns == [] then [] else ns[1..])
    {
      item := head;
      if head == tail {
        assert |ns| <= 1;
        Clear();
      } else {
        assert Chained(ns, 0);
        head := item.next;
        assert forall i :: 0 <= i < |ns| - 1 ==> Chained(ns, i + 1) && Chained(ns[1..], i);
      }
    }

    /** slist_find_first_match */
    method FindFirstMatch(match_: int -> bool, ghost ns: seq<Item>) returns (item: Item?, prev: Item?, ghost k: nat)
      requires Holds(ns)
      ensures k <= |ns| && (forall j :: 0 <= j < k ==> !match_(ns[j].val))
      ensures item == At(ns, k) && (item != null ==> match_(item.val))
      ensures prev == if k == 0 then null else ns[k - 1]
    {
      prev, item := null, head;
      k := 0;
      while item != null
        invariant k <= |ns| && (forall j :: 0 <= j < k ==> !match_(ns[j].val))
        invariant item == At(ns, k) && prev == if k == 0 then null else ns[k - 1]
        decreases |ns| - k
      {
        if match_(item.val) { return; }
        assert Chained(ns, k);
        prev, item := item, item.next;
        k := k + 1;
      }
    }

    /** The middle branch of slist_insert_before_first_match. */
    method InsertBehind(item: Item, prev: Item, ghost ns: seq<Item>, ghost k: nat)
      requires Holds(ns) && 0 < k < |ns| && prev == ns[k - 1] && item !in ns
      modifies item, prev
      ensures Holds(ns[..k] + [item] + ns[k..])
    {
      assert Chained(ns, k - 1);
      item.next := prev.next;
      prev.next := item;
      ghost var ms := ns[..k] + [item] + ns[k..];
      forall i | 0 <= i < |ms| ensures Chained(ms, i) {
        assert i < k - 1 ==> old(Chained(ns, i));
        assert i > k ==> old(Chained(ns, i - 1));
      }
    }

    /** slist_insert_before_first_match */
    method InsertBeforeFirstMatch(match_: int -> bool, item: Item, ghost ns: seq<Item>) returns (ghost k: nat)
      requires Holds(ns) && item !in ns
      modifies this, item, ns
      ensures k <= |ns| && (forall j :: 0 <= j < k ==> !match_(ns[j].val)) && (k < |ns| ==> match_(ns[k].val))
      ensures Holds(ns[..k] + [item] + ns[k..])
    {
      var cur, prev;
      cur, prev, k := FindFirstMatch(match_, ns);
      if cur == null {
        InsertTail(item, ns);
        assert ns[..k] + [item] + ns[k..] == ns + [item];
      } else if prev == null {
        InsertHead(item, ns);
        assert ns[..k] + [item] + ns[k..] == [item] + ns;
      } else {
        InsertBehind(item, prev, ns, k);
      }
    }

    /** slist_remove: the tail moves back when the last entry goes. */
    method RemoveItem(item: Item, prev: Item?, ghost ns: seq<Item>, ghost k: nat)
      requires Holds(ns) && k < |ns| && item == ns[k] && prev == if k == 0 then null else ns[k - 1]
      modifies this, prev
      ensures Holds(ns[..k] + ns[k + 1..])
    {
      if prev != null {
        prev.next := item.next;
      } else {
        head := item.next;
      }
      assert old(Chained(ns, k));
      if item.next == null {
        tail := prev;
      }
      ghost var ms := ns[..k] + ns[k + 1..];
      forall i | 0 <= i < |ms| ensures Chained(ms, i) {
        assert i < k - 1 ==> old(Chained(ns, i));
        assert i >= k ==> old(Chained(ns, i + 1));
      }
    }

    /** slist_remove_first_match */
    method RemoveFirstMatch(match_: int -> bool, ghost ns: seq<Item>) returns (item: Item?, ghost k: nat)
      requires Holds(ns)
      modifies this, ns
      ensures k <= |ns| && item == At(ns, k) && (forall j :: 0 <= j < k ==> !match_(ns[j].val))
      ensures item != null ==> match_(item.val)
      ensures Holds(if k < |ns| then ns[..k] + ns[k + 1..] else ns)
    {
      var prev;
      item, prev, k := FindFirstMatch(match_, ns);
      if item != null {
        RemoveItem(item, prev, ns, k);
      }
    }

    /** slist_swap */
    method Swap(src: List, ghost ns: seq<Item>, ghost ms: seq<Item>)
      requires Holds(ns) && src.Holds(ms)
      modifies this, src
      ensures Holds(ms) && src.Holds(ns)
    {
      var h, t := head, tail;
      head, tail := src.head, src.tail;
      src.head, src.tail := h, t;
    }

    /** slist_splice_head */
    method SpliceHead(src: List, ghost ns: seq<Item>, ghost ms: seq<Item>)
      requires Holds(ns) && src.Holds(ms) && src != this
      requires forall x :: x in ns ==> x !in ms
      modifies this, src, src.tail
      ensures Holds(ms + ns) && src.Holds([])
    {
      if src.head == null {
        assert ms + ns == ns;
        return;
      }
      if head == null {
        Swap(src, ns, ms);
        assert ms + ns == ms;
        return;
      }
      JoinDistinct(ns, ms);
      JoinDistinct(ms, ns);
      src.tail.next := head;
      head := src.head;
      src.Clear();
      forall i | 0 <= i < |ms + ns| ensures Chained(ms + ns, i) {
        assert i < |ms| - 1 ==> old(Chained(ms, i));
        assert i >= |ms| ==> old(Chained(ns, i - |ms|));
      }
    }

    /** slist_splice_tail */
    method SpliceTail(src: List, ghost ns: seq<Item>, ghost ms: seq<Item>)
      requires Holds(ns) && src.Holds(ms) && src != this
      requires forall x :: x in ns ==> x !in ms
      modifies this, src, tail
      ensures Holds(ns + ms) && src.Holds([])
    {
      if src.head == null {
        assert ns + ms == ns;
        return;
      }
      if head == null {
        Swap(src, ns, ms);
        assert ns + ms == ms;
        return;
      }
      JoinDistinct(ns, ms);
      tail.next := src.head;
      tail := src.tail;
      src.Clear();
      forall i | 0 <= i < |ns + ms| ensures Chained(ns + ms, i) {
        assert i < |ns| - 1 ==> old(Chained(ns, i));
        assert i >= |ns| ==> old(Chained(ms, i - |ns|));
      }
    }
  }
}

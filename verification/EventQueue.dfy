/**
  The event queue: a list of events and a pipe that holds one unread byte per
  queued event, so that a reader can poll it.
 */
module EventQueue {
  /** Events compare equal by their tag; the id tells objects apart. */
  datatype Event = Event(tag: int, id: nat)

  predicate Same(a: Event, b: Event) { a.tag == b.tag }

  function Matching(q: seq<Event>, p: Event -> bool): seq<Event> {
    if q == [] then []
    else Matching(q[..|q| - 1], p) + if p(q[|q| - 1]) then [q[|q| - 1]] else []
  }

  function Rest(q: seq<Event>, p: Event -> bool): seq<Event> {
    Matching(q, e => !p(e))
  }

  /** list.remove: the first equal element. */
  function First(q: seq<Event>, e: Event): (i: nat)
    ensures i <= |q| && (i < |q| ==> Same(q[i], e)) && (forall j :: 0 <= j < i ==> !Same(q[j], e))
  {
    if q == [] || Same(q[0], e) then 0 else 1 + First(q[1..], e)
  }

  function Cut(q: seq<Event>, i: nat): seq<Event>
    requires i < |q|
  {
    q[..i] + q[i + 1..]
  }

  function RemoveFirst(q: seq<Event>, e: Event): seq<Event> {
    if First(q, e) < |q| then Cut(q, First(q, e)) else q
  }

  function RemoveEach(q: seq<Event>, es: seq<Event>): seq<Event>
    decreases |es|
  {
    if es == [] then q else RemoveFirst(RemoveEach(q, es[..|es| - 1]), es[|es| - 1])
  }

  lemma MatchingPush(q: seq<Event>, e: Event, p: Event -> bool)
    ensures Matching(q + [e], p) == Matching(q, p) + if p(e) then [e] else []
  {
    assert (q + [e])[..|q|] == q;
  }

  /** The matching events are those of the queue that match, each once and in the
      order of the queue: the one at `i` comes behind those that match before it. */
  lemma {:induction false} MatchingIs(q: seq<Event>, p: Event -> bool, i: nat)
    requires i < |q|
    ensures p(q[i]) ==> var k := |Matching(q[..i], p)|; k < |Matching(q, p)| && Matching(q, p)[k] == q[i]
    ensures |Matching(q, p)| + |Matching(q, e => !p(e))| == |q|
    ensures forall e :: e in Matching(q, p) ==> e in q && p(e)
    decreases |q|
  {
    var front := q[..|q| - 1];
    assert q == front + [q[|q| - 1]];
    if i < |front| {
      MatchingIs(front, p, i);
      assert front[..i] == q[..i];
    } else if front != [] {
      MatchingIs(front, p, 0);
    }
  }

  lemma RemoveEachPush(q: seq<Event>, es: seq<Event>, e: Event)
    ensures RemoveEach(q, es + [e]) == RemoveFirst(RemoveEach(q, es), e)
  {
    assert (es + [e])[..|es|] == es;
  }

  /** No event that does not match stands before an equal one that does. */
  predicate Fair(q: seq<Event>, p: Event -> bool) {
    forall i, j :: 0 <= i < j < |q| && Same(q[i], q[j]) && p(q[j]) ==> p(q[i])
  }

  // ---------------------------------------------------------------- removal by value

  lemma FirstBefore(a: seq<Event>, b: seq<Event>, e: Event)
    requires First(a, e) < |a|
    ensures First(a + b, e) == First(a, e)
  {
    var i, k := First(a, e), First(a + b, e);
    assert Same((a + b)[i], e);
    assert forall j :: 0 <= j < |a| ==> (a + b)[j] == a[j];
  }

  lemma RemoveFirstAppend(a: seq<Event>, b: seq<Event>, e: Event)
    requires First(a, e) < |a|
    ensures RemoveFirst(a + b, e) == RemoveFirst(a, e) + b
  {
    FirstBefore(a, b, e);
    CutAppend(a, b, First(a, e));
  }

  lemma CutAppend(a: seq<Event>, b: seq<Event>, i: nat)
    requires i < |a|
    ensures Cut(a + b, i) == Cut(a, i) + b
  {
    assert (a + b)[..i] == a[..i];
    assert (a + b)[i + 1..] == a[i + 1..] + b;
  }

  lemma FirstBehind(a: seq<Event>, b: seq<Event>, e: Event)
    requires First(a, e) == |a|
    ensures First(a + b, e) == |a| + First(b, e)
  {
    var k, i := First(a + b, e), First(b, e);
    assert forall j :: 0 <= j < |a| ==> (a + b)[j] == a[j] && !Same(a[j], e);
    assert forall j :: 0 <= j < |b| ==> (a + b)[|a| + j] == b[j];
    assert i < |b| ==> Same((a + b)[|a| + i], e);
    if k < |a + b| && k >= |a| { assert Same(b[k - |a|], e); }
  }

  /** Removals that all find something in a prefix do not reach behind it. */
  lemma {:induction false} RemoveEachPrefix(q: seq<Event>, b: seq<Event>, es: seq<Event>)
    requires |RemoveEach(q, es)| + |es| == |q|
    ensures RemoveEach(q + b, es) == RemoveEach(q, es) + b
    decreases |es|
  {
    if es != [] {
      var front, last := es[..|es| - 1], es[|es| - 1];
      RemoveEachShrinks(q, front);
      RemoveEachPrefix(q, b, front);
      RemoveFirstAppend(RemoveEach(q, front), b, last);
    }
  }

  lemma {:induction false} RemoveEachShrinks(q: seq<Event>, es: seq<Event>)
    ensures |RemoveEach(q, es)| + |es| >= |q|
    decreases |es|
  {
    if es != [] { RemoveEachShrinks(q, es[..|es| - 1]); }
  }

  function Tags(q: seq<Event>, t: int): nat {
    if q == [] then 0 else Tags(q[..|q| - 1], t) + if q[|q| - 1].tag == t then 1 else 0
  }

  lemma {:induction false} TagsAppend(a: seq<Event>, b: seq<Event>, t: int)
    ensures Tags(a + b, t) == Tags(a, t) + Tags(b, t)
    decreases |b|
  {
    if b == [] {
      assert a + b == a;
    } else {
      assert (a + b)[..|a + b| - 1] == a + b[..|b| - 1];
      TagsAppend(a, b[..|b| - 1], t);
    }
  }

  lemma {:induction false} TagsZero(q: seq<Event>, e: Event)
    ensures First(q, e) == |q| <==> Tags(q, e.tag) == 0
    decreases |q|
  {
    if q != [] {
      var front := q[..|q| - 1];
      assert q == front + [q[|q| - 1]];
      TagsZero(front, e);
      FirstOf(front, q[|q| - 1], e);
    }
  }

  lemma FirstOf(front: seq<Event>, last: Event, e: Event)
    ensures First(front + [last], e) == |front + [last]| <==> First(front, e) == |front| && !Same(last, e)
  {
    var q := front + [last];
    var k := First(q, e);
    if First(front, e) == |front| {
      FirstBehind(front, [last], e);
      assert First([last], e) == if Same(last, e) then 0 else 1;
    } else {
      assert Same(q[First(front, e)], e);
    }
  }

  lemma RemoveFirstTags(q: seq<Event>, e: Event, t: int)
    ensures Tags(RemoveFirst(q, e), t) + (if First(q, e) < |q| && e.tag == t then 1 else 0) == Tags(q, t)
  {
    var i := First(q, e);
    if i < |q| {
      assert q == q[..i] + ([q[i]] + q[i + 1..]) && RemoveFirst(q, e) == q[..i] + q[i + 1..];
      TagsAppend(q[..i], [q[i]] + q[i + 1..], t);
      TagsAppend([q[i]], q[i + 1..], t);
      TagsAppend(q[..i], q[i + 1..], t);
      assert [q[i]][..0] == [];
    }
  }

  lemma {:induction false} MatchingTags(q: seq<Event>, p: Event -> bool, t: int)
    ensures Tags(Matching(q, p), t) <= Tags(q, t)
    decreases |q|
  {
    if q != [] {
      MatchingTags(q[..|q| - 1], p, t);
      var last := q[|q| - 1];
      TagsAppend(Matching(q[..|q| - 1], p), if p(last) then [last] else [], t);
      assert [last][..0] == [];
    }
  }

  /** As long as the list of removals holds no tag more often than the queue,
      every removal finds something. */
  lemma {:induction false} RemovesAll(q: seq<Event>, es: seq<Event>)
    requires forall t :: Tags(es, t) <= Tags(q, t)
    ensures |RemoveEach(q, es)| + |es| == |q|
    ensures forall t :: Tags(RemoveEach(q, es), t) + Tags(es, t) == Tags(q, t)
    decreases |es|
  {
    if es != [] {
      var front, last := es[..|es| - 1], es[|es| - 1];
      forall t ensures Tags(front, t) <= Tags(es, t) { }
      RemovesAll(q, front);
      var r := RemoveEach(q, front);
      assert Tags(es, last.tag) == Tags(front, last.tag) + 1;
      TagsZero(r, last);
      forall t ensures Tags(RemoveFirst(r, last), t) + Tags(es, t) == Tags(q, t) { RemoveFirstTags(r, last, t); }
    }
  }

  // ---------------------------------------------------------------- results

  lemma AllFound(q: seq<Event>, p: Event -> bool)
    ensures |RemoveEach(q, Matching(q, p))| + |Matching(q, p)| == |q|
  {
    forall t ensures Tags(Matching(q, p), t) <= Tags(q, t) { MatchingTags(q, p, t); }
    RemovesAll(q, Matching(q, p));
  }

  lemma TakeOne(left: seq<Event>, e: Event)
    ensures RemoveFirst(left + [e], e) == if First(left, e) < |left| then RemoveFirst(left, e) + [e] else left
  {
    if First(left, e) < |left| {
      RemoveFirstAppend(left, [e], e);
    } else {
      FirstBehind(left, [e], e);
      assert RemoveFirst(left + [e], e) == left;
    }
  }

  /** What is left after one more event: it stays, or it is taken - in place of an
      earlier equal event if one is left. */
  lemma LeftStep(q: seq<Event>, e: Event, p: Event -> bool)
    ensures var left := RemoveEach(q, Matching(q, p));
            RemoveEach(q + [e], Matching(q + [e], p)) ==
            if !p(e) then left + [e] else if First(left, e) < |left| then RemoveFirst(left, e) + [e] else left
  {
    var m, left := Matching(q, p), RemoveEach(q, Matching(q, p));
    AllFound(q, p);
    RemoveEachPrefix(q, [e], m);
    MatchingPush(q, e, p);
    assert m + [] == m;
    if p(e) {
      RemoveEachPush(q + [e], m, e);
      TakeOne(left, e);
    }
  }

  lemma {:induction false} RestOf(q: seq<Event>, p: Event -> bool, x: Event)
    ensures x in Rest(q, p) <==> x in q && !p(x)
    decreases |q|
  {
    if q != [] {
      RestOf(q[..|q| - 1], p, x);
      assert q == q[..|q| - 1] + [q[|q| - 1]];
    }
  }

  lemma FairStep(q: seq<Event>, e: Event, p: Event -> bool)
    ensures Fair(q + [e], p) <==> Fair(q, p) && (p(e) ==> First(Rest(q, p), e) == |Rest(q, p)|)
  {
    var rest := Rest(q, p);
    var q' := q + [e];
    assert forall i :: 0 <= i < |q| ==> q'[i] == q[i];
    if p(e) && First(rest, e) < |rest| {
      var x := rest[First(rest, e)];
      assert x in rest;
      RestOf(q, p, x);
      var i :| 0 <= i < |q| && q[i] == x;
      assert !p(q'[i]) && Same(q'[i], q'[|q|]) && p(q'[|q|]);
    } else if Fair(q, p) {
      forall i, j | 0 <= i < j < |q'| && Same(q'[i], q'[j]) && p(q'[j]) ensures p(q'[i]) {
        if j < |q| { assert Same(q[i], q[j]); } else { RestOf(q, p, q[i]); }
      }
    } else {
      var i, j :| 0 <= i < j < |q| && Same(q[i], q[j]) && p(q[j]) && !p(q[i]);
      assert Same(q'[i], q'[j]) && p(q'[j]) && !p(q'[i]);
    }
  }

  lemma RemoveFirstBag(q: seq<Event>, e: Event)
    requires First(q, e) < |q|
    ensures multiset(q) == multiset(RemoveFirst(q, e)) + multiset{q[First(q, e)]}
  {
    CutBag(q, First(q, e));
  }

  lemma CutBag(q: seq<Event>, i: nat)
    requires i < |q|
    ensures multiset(q) == multiset(Cut(q, i)) + multiset{q[i]}
  {
    var a, b := q[..i], q[i + 1..];
    assert q == a + [q[i]] + b;
    assert multiset(a + b) == multiset(a) + multiset(b);
  }

  lemma {:induction false} FairIsExact(q: seq<Event>, p: Event -> bool)
    requires Fair(q, p)
    ensures RemoveEach(q, Matching(q, p)) == Rest(q, p)
    decreases |q|
  {
    if q != [] {
      var front, last := q[..|q| - 1], q[|q| - 1];
      assert q == front + [last];
      FairStep(front, last, p);
      FairIsExact(front, p);
      LeftStep(front, last, p);
    }
  }

  /** Otherwise some event that did not match has been removed. */
  lemma {:induction false} UnfairLoses(q: seq<Event>, p: Event -> bool) returns (u: Event)
    requires !Fair(q, p)
    ensures !p(u) && multiset(RemoveEach(q, Matching(q, p)))[u] < multiset(Rest(q, p))[u]
    decreases |q|
  {
    var front, last := q[..|q| - 1], q[|q| - 1];
    assert q == front + [last];
    var left, rest := RemoveEach(front, Matching(front, p)), Rest(front, p);
    FairStep(front, last, p);
    LeftStep(front, last, p);
    assert Rest(q, p) == rest + if p(last) then [] else [last] by { MatchingPush(front, last, e => !p(e)); }
    if Fair(front, p) {
      FairIsExact(front, p);
      u := rest[First(rest, last)];
      assert u in rest;
      RestOf(front, p, u);
      TakenInstead(rest, last, u);
    } else {
      u := UnfairLoses(front, p);
      if p(last) && First(left, last) < |left| { TakenInstead(left, last, u); }
    }
  }

  lemma TakenInstead(q: seq<Event>, e: Event, u: Event)
    requires First(q, e) < |q| && u != e
    ensures multiset(RemoveFirst(q, e) + [e])[u] == multiset(q)[u] - if u == q[First(q, e)] then 1 else 0
  {
    RemoveFirstBag(q, e);
  }

  /** get leaves exactly the events that do not match, in order, if and only if no
      such event stands before an equal one that does. */
  lemma GetExactIff(q: seq<Event>, p: Event -> bool)
    ensures RemoveEach(q, Matching(q, p)) == Rest(q, p) <==> Fair(q, p)
  {
    if Fair(q, p) {
      FairIsExact(q, p);
    } else {
      var u := UnfairLoses(q, p);
    }
  }

  ghost predicate RespectsEquality(p: Event -> bool) {
    forall a, b :: Same(a, b) ==> p(a) == p(b)
  }

  /** So it does for every queue exactly when the predicate respects equality. */
  lemma ExactForEveryQueueIff(p: Event -> bool)
    ensures (forall q :: RemoveEach(q, Matching(q, p)) == Rest(q, p)) <==> RespectsEquality(p)
  {
    forall q ensures RemoveEach(q, Matching(q, p)) == Rest(q, p) <==> Fair(q, p) { GetExactIff(q, p); }
    if !RespectsEquality(p) {
      var a, b :| Same(a, b) && p(a) != p(b);
      var q := if p(b) then [a, b] else [b, a];
      assert Same(q[0], q[1]) && p(q[1]) && !p(q[0]);
      assert !Fair(q, p);
    }
  }

  // ---------------------------------------------------------------- the queue object

  class EventApi {
    var queue: seq<Event>
    var unread: nat

    /** One byte in the pipe per queued event. */
    predicate Valid()
      reads this
    {
      unread == |queue|
    }

    constructor ()
      ensures Valid() && queue == []
    {
      queue, unread := [], 0;
    }

    method Put(e: Event)
      requires Valid()
      modifies this
      ensures Valid() && queue == old(queue) + [e]
    {
      queue := queue + [e];
      unread := unread + 1;
    }

    /** get, for any predicate. */
    method Get(p: Event -> bool) returns (res: seq<Event>)
      requires Valid()
      modifies this
      ensures Valid() && res == Matching(old(queue), p)
      ensures queue == RemoveEach(old(queue), res)
      ensures RespectsEquality(p) ==> queue == Rest(old(queue), p)
    {
      ghost var start := queue;
      res := Collect(p);
      RemoveResults(res);
      AllFound(start, p);
      unread := unread - |res|;
      if RespectsEquality(p) { FairIsExact(start, p); }
    }

    method Collect(p: Event -> bool) returns (res: seq<Event>)
      ensures res == Matching(queue, p)
    {
      res := [];
      for i := 0 to |queue|
        invariant res == Matching(queue[..i], p)
      {
        assert queue[..i + 1] == queue[..i] + [queue[i]];
        MatchingPush(queue[..i], queue[i], p);
        if p(queue[i]) { res := res + [queue[i]]; }
      }
      assert queue[..|queue|] == queue;
    }

    method RemoveResults(res: seq<Event>)
      modifies `queue
      ensures queue == RemoveEach(old(queue), res)
    {
      for i := 0 to |res|
        invariant queue == RemoveEach(old(queue), res[..i])
      {
        RemoveEachPush(old(queue), res[..i], res[i]);
        assert res[..i + 1] == res[..i] + [res[i]];
        RemoveOne(res[i]);
      }
      assert res[..|res|] == res;
    }

    /** list.remove on the queue. */
    method RemoveOne(e: Event)
      modifies `queue
      ensures queue == RemoveFirst(old(queue), e)
    {
      var i := 0;
      while i < |queue| && !Same(queue[i], e)
        invariant i <= |queue| && forall j :: 0 <= j < i ==> !Same(queue[j], e)
      {
        i := i + 1;
      }
      if i < |queue| {
        queue := queue[..i] + queue[i + 1..];
      }
    }
  }
}

/**
  The peer table: one record per peer handle, kept up to date by the lifecycle
  events of agent blocks, and the lookups RPC callers use.
 */
module Peers {
  import opened Common
  import Lifecycle

  datatype Kind = Ready | Degraded | Lost | Removed

  type Endpoint = map<string, string>

  /** Where a pending outbound connect was headed. */
  datatype Target = Target(runtimeId: string, direction: string, nodeType: int)

  datatype Event = Event(
    kind: Kind, handle: string, runtimeId: string, endpoint: Endpoint, context: string,
    direction: string, isSelf: bool, nodeType: int, reason: string, timestamp: int)

  datatype Record = Record(
    handle: string, runtimeId: string, endpoint: Endpoint, context: string, direction: string,
    isSelf: bool, lastSeen: int, nodeType: int, callable: bool, lossReason: string)

  type Peers = map<string, Record>

  /** Connect targets by runtime id and by endpoint signature. */
  datatype Pending = Pending(byRuntime: map<string, Target>, byEndpoint: map<Endpoint, Target>)

  function Value(e: Endpoint, key: string): string {
    if key in e then e[key] else ""
  }

  /** The part of an endpoint a connect target is remembered under. */
  function Signature(e: Endpoint): Endpoint {
    map k | k in {"address", "listen_port", "node_name", "hostname"} :: Value(e, k)
  }

  function Or(a: string, b: string): string { if a != "" then a else b }

  function OrInt(a: int, b: int): int { if a != 0 then a else b }

  function PendingFor(p: Pending, runtimeId: string, e: Endpoint): Target {
    if runtimeId != "" && runtimeId in p.byRuntime then p.byRuntime[runtimeId]
    else if e != map[] && Signature(e) in p.byEndpoint then p.byEndpoint[Signature(e)]
    else Target("", "", 0)
  }

  /** Non-empty event fields overwrite what the record already says. */
  function MergeEndpoint(old_: Endpoint, new_: Endpoint): Endpoint {
    old_ + map k | k in new_ && new_[k] != "" :: new_[k]
  }

  /** The record an event writes, for a handle the table may already hold.
      `inferred` is what the configured parent suggests for the node type. */
  function Updated(current: Option<Record>, p: Pending, e: Event, inferred: int): Record {
    var c := if current.Some? then current.value
             else Record(e.handle, "", map[], "", "", false, 0, 0, false, "");
    var endpoint := if current.Some? then MergeEndpoint(c.endpoint, e.endpoint) else e.endpoint;
    var known := Or(e.runtimeId, c.runtimeId);
    var t := PendingFor(p, known, endpoint);
    Record(
      e.handle,
      Or(known, t.runtimeId),
      endpoint,
      Or(e.context, c.context),
      Or(Or(e.direction, c.direction), t.direction),
      e.isSelf,
      e.timestamp,
      OrInt(OrInt(OrInt(e.nodeType, c.nodeType), t.nodeType), inferred),
      !e.kind.Lost?,
      if e.kind.Ready? then "" else e.reason)
  }

  function ApplyEvent(m: Peers, p: Pending, e: Event, inferred: int): Peers {
    if e.handle == "" then m
    else if e.handle in m && e.timestamp < m[e.handle].lastSeen then m
    else if e.kind.Removed? then m - {e.handle}
    else if e.handle !in m && e.kind.Lost? then m
    else m[e.handle := Updated(if e.handle in m then Some(m[e.handle]) else None, p, e, inferred)]
  }

  // ---------------------------------------------------------------- lookups

  /** What an RPC caller looks for: a block uuid, a runtime id, or an endpoint; the
      zero uuid counts as none. */
  datatype Wanted = Wanted(handle: string, runtimeId: string, endpoint: Endpoint, nodeType: int)

  predicate PortSet(e: Endpoint) {
    Value(e, "listen_port") != "" && Value(e, "listen_port") != "0"
  }

  function Hostname(e: Endpoint): string { Or(Value(e, "hostname"), Value(e, "address")) }

  /** The same process under another spelling: same port and host, and node types
      that do not contradict each other. */
  predicate SameTransport(r: Record, t: Wanted) {
    && PortSet(r.endpoint) && Value(r.endpoint, "listen_port") == Value(t.endpoint, "listen_port")
    && (t.nodeType == 0 || r.nodeType == 0 || t.nodeType == r.nodeType)
    && Hostname(t.endpoint) != "" && Hostname(r.endpoint) == Hostname(t.endpoint)
  }

  /** __record_matches */
  predicate RecordMatches(r: Record, t: Wanted, direction: string) {
    && r.callable
    && (direction != "" ==> r.direction == direction)
    && (if t.runtimeId != "" then r.runtimeId == t.runtimeId
        else t.endpoint == map[] || (r.endpoint != map[] && Signature(r.endpoint) == Signature(t.endpoint))
             || SameTransport(r, t))
  }

  predicate Holds(m: Peers, r: Record) {
    exists h :: h in m && m[h] == r
  }

  class PeerTable {
    var peers: Peers
    var pending: Pending

    constructor ()
      ensures peers == map[] && pending == Pending(map[], map[])
    {
      peers, pending := map[], Pending(map[], map[]);
    }

    method RememberTarget(endpoint: Endpoint, t: Target)
      modifies `pending
      ensures t.runtimeId != "" ==>
                t.runtimeId in pending.byRuntime && pending.byRuntime[t.runtimeId] == t
      ensures endpoint != map[] ==>
                Signature(endpoint) in pending.byEndpoint && pending.byEndpoint[Signature(endpoint)] == t
      ensures pending.byRuntime - {t.runtimeId} == old(pending.byRuntime) - {t.runtimeId}
      ensures pending.byEndpoint - {Signature(endpoint)} == old(pending.byEndpoint) - {Signature(endpoint)}
    {
      if t.runtimeId != "" {
        pending := pending.(byRuntime := pending.byRuntime[t.runtimeId := t]);
      }
      if endpoint != map[] {
        pending := pending.(byEndpoint := pending.byEndpoint[Signature(endpoint) := t]);
      }
    }

    /** __find_record: the record under the target's block uuid, or - without one,
        or as a fallback - any record that matches. */
    method FindRecord(t: Wanted, direction: string, fallback: bool) returns (r: Option<Record>)
      ensures r.Some? ==> Holds(peers, r.value) && RecordMatches(r.value, t, direction)
      ensures r.Some? && t.handle != "" && !fallback ==> t.handle in peers && r.value == peers[t.handle]
      ensures r.None? && t.handle != "" ==> !(t.handle in peers && RecordMatches(peers[t.handle], t, direction))
      ensures r.None? && (t.handle == "" || fallback) ==>
                forall h :: h in peers ==> !RecordMatches(peers[h], t, direction)
    {
      if t.handle != "" {
        if t.handle in peers && RecordMatches(peers[t.handle], t, direction) { return Some(peers[t.handle]); }
        if !fallback { return None; }
      }
      var todo := peers.Keys;
      while todo != {}
        invariant todo <= peers.Keys
        invariant forall h :: h in peers && h !in todo ==> !RecordMatches(peers[h], t, direction)
        decreases |todo|
      {
        var h :| h in todo;
        if RecordMatches(peers[h], t, direction) { return Some(peers[h]); }
        todo := todo - {h};
      }
      return None;
    }

    method Apply(e: Event, inferred: int) returns (r: Option<Record>)
      modifies `peers
      ensures peers == ApplyEvent(old(peers), pending, e, inferred)
      ensures e.handle != "" && e.handle in peers ==> r == Some(peers[e.handle])
    {
      if e.handle == "" { return None; }
      if e.handle in peers && e.timestamp < peers[e.handle].lastSeen {
        return Some(peers[e.handle]);
      }
      if e.kind.Removed? {
        r := if e.handle in peers then Some(peers[e.handle]) else None;
        peers := peers - {e.handle};
        return r;
      }
      if e.handle !in peers && e.kind.Lost? { return None; }
      var current := None;
      if e.handle in peers {
        current := Some(peers[e.handle]);
      }
      var record := Updated(current, pending, e, inferred);
      peers := peers[e.handle := record];
      return Some(record);
    }
  }

  // ---------------------------------------------------------------- what an event writes

  function FirstGiven(texts: seq<string>): string {
    if texts == [] then "" else if texts[0] != "" then texts[0] else FirstGiven(texts[1..])
  }

  function FirstSet(numbers: seq<int>): int {
    if numbers == [] then 0 else if numbers[0] != 0 then numbers[0] else FirstSet(numbers[1..])
  }

  lemma FirstThree(a: string, b: string, c: string)
    ensures FirstGiven([a, b, c]) == if a != "" then a else if b != "" then b else c
    ensures FirstGiven([a, b]) == if a != "" then a else b
  {
    assert [a, b, c][1..] == [b, c] && [b, c][1..] == [c] && [a, b][1..] == [b] && [b][1..] == [] && [c][1..] == [];
    assert FirstGiven([b]) == b && FirstGiven([c]) == c;
    assert FirstGiven([b, c]) == if b != "" then b else c;
  }

  lemma FirstFour(a: int, b: int, c: int, d: int)
    ensures FirstSet([a, b, c, d]) == if a != 0 then a else if b != 0 then b else if c != 0 then c else d
  {
    assert [a, b, c, d][1..] == [b, c, d] && [b, c, d][1..] == [c, d] && [c, d][1..] == [d] && [d][1..] == [];
    assert FirstSet([c, d]) == if c != 0 then c else FirstSet([d]);
  }

  /** Two endpoints have the same address, port, node name and host name. */
  predicate SamePlace(a: Endpoint, b: Endpoint) {
    && Value(a, "address") == Value(b, "address") && Value(a, "listen_port") == Value(b, "listen_port")
    && Value(a, "node_name") == Value(b, "node_name") && Value(a, "hostname") == Value(b, "hostname")
  }

  lemma SignatureIff(a: Endpoint, b: Endpoint)
    ensures Signature(a) == Signature(b) <==> SamePlace(a, b)
  {
    if Signature(a) == Signature(b) {
      assert Signature(a)["address"] == Signature(b)["address"];
      assert Signature(a)["listen_port"] == Signature(b)["listen_port"];
      assert Signature(a)["node_name"] == Signature(b)["node_name"];
      assert Signature(a)["hostname"] == Signature(b)["hostname"];
    }
  }

  /** The target an event's peer is matched with: the one remembered for its
      runtime id, else the one remembered for its place, else none. */
  lemma TargetOf(p: Pending, runtimeId: string, e: Endpoint, place: Endpoint)
    ensures var t := PendingFor(p, runtimeId, e);
            && (runtimeId != "" && runtimeId in p.byRuntime ==> t == p.byRuntime[runtimeId])
            && (runtimeId == "" || runtimeId !in p.byRuntime ==>
                  && (e != map[] && SamePlace(place, e) && Signature(place) in p.byEndpoint ==>
                        t == p.byEndpoint[Signature(place)])
                  && (e == map[] || Signature(e) !in p.byEndpoint ==> t == Target("", "", 0)))
  {
    SignatureIff(place, e);
  }

  /** Every field of the record an event writes: what the event says, else what was
      known, else what the matching connect target says. */
  lemma RecordWritten(current: Option<Record>, p: Pending, e: Event, inferred: int)
    ensures var r := Updated(current, p, e, inferred);
            var known := match current case Some(c) => c
                                       case None => Record(e.handle, "", map[], "", "", false, 0, 0, false, "");
            var t := PendingFor(p, FirstGiven([e.runtimeId, known.runtimeId]), r.endpoint);
            && r.handle == e.handle && r.isSelf == e.isSelf && r.lastSeen == e.timestamp
            && r.runtimeId == FirstGiven([e.runtimeId, known.runtimeId, t.runtimeId])
            && r.context == FirstGiven([e.context, known.context])
            && r.direction == FirstGiven([e.direction, known.direction, t.direction])
            && r.nodeType == FirstSet([e.nodeType, known.nodeType, t.nodeType, inferred])
            && (r.callable <==> e.kind == Ready || e.kind == Degraded || e.kind == Removed)
            && r.lossReason == (if e.kind == Ready then "" else e.reason)
  {
    var known := match current case Some(c) => c
                               case None => Record(e.handle, "", map[], "", "", false, 0, 0, false, "");
    var r := Updated(current, p, e, inferred);
    FirstThree(e.runtimeId, known.runtimeId, "");
    var t := PendingFor(p, FirstGiven([e.runtimeId, known.runtimeId]), r.endpoint);
    FirstThree(e.runtimeId, known.runtimeId, t.runtimeId);
    FirstThree(e.context, known.context, "");
    FirstThree(e.direction, known.direction, t.direction);
    FirstFour(e.nodeType, known.nodeType, t.nodeType, inferred);
  }

  /** A field of its endpoint: the event's value where it gives one, else the
      known one. */
  lemma EndpointWritten(c: Record, p: Pending, e: Event, inferred: int, k: string)
    ensures var r := Updated(Some(c), p, e, inferred);
            && (k in r.endpoint <==> k in c.endpoint || (k in e.endpoint && e.endpoint[k] != ""))
            && (k in r.endpoint ==>
                  r.endpoint[k] == if k in e.endpoint && e.endpoint[k] != "" then e.endpoint[k] else c.endpoint[k])
    ensures Updated(None, p, e, inferred).endpoint == e.endpoint
  {
  }

  /** When an event is heard: not without a handle, not if it is older than the
      record, and a loss not of an unknown peer. A removal drops the record. */
  lemma EventHeard(m: Peers, p: Pending, e: Event, inferred: int)
    ensures var m', h := ApplyEvent(m, p, e, inferred), e.handle;
            var stale := h in m && e.timestamp < m[h].lastSeen;
            && (h == "" || stale || (h !in m && e.kind == Lost) ==> m' == m)
            && (h != "" && !stale && e.kind == Removed ==> h !in m')
            && (h != "" && !stale && (e.kind == Ready || e.kind == Degraded || (e.kind == Lost && h in m)) ==>
                  h in m' && m'[h] == Updated(if h in m then Some(m[h]) else None, p, e, inferred))
  {
  }

  /** Whom a lookup may return: a callable record in the direction asked for, of
      the runtime asked for; or, without a runtime, at the same place, or listening
      on the same port of the same host, if the node types do not contradict. */
  lemma LookupIff(r: Record, t: Wanted, direction: string)
    ensures RecordMatches(r, t, direction) <==>
            && r.callable && (direction == "" || r.direction == direction)
            && (t.runtimeId != "" ==> r.runtimeId == t.runtimeId)
            && (t.runtimeId == "" && t.endpoint != map[] ==>
                  || (r.endpoint != map[] && SamePlace(r.endpoint, t.endpoint))
                  || (var port := Value(r.endpoint, "listen_port");
                      && port != "" && port != "0" && port == Value(t.endpoint, "listen_port")
                      && !(t.nodeType != 0 && r.nodeType != 0 && t.nodeType != r.nodeType)
                      && FirstGiven([Value(r.endpoint, "hostname"), Value(r.endpoint, "address")]) ==
                         FirstGiven([Value(t.endpoint, "hostname"), Value(t.endpoint, "address")]) != ""))
  {
    SignatureIff(r.endpoint, t.endpoint);
    FirstThree(Value(r.endpoint, "hostname"), Value(r.endpoint, "address"), "");
    FirstThree(Value(t.endpoint, "hostname"), Value(t.endpoint, "address"), "");
  }

  // ---------------------------------------------------------------- replay

  /** An event with the connect targets remembered, and the node type inferred,
      when it is applied: both may change between any two events. */
  datatype Turn = Turn(event: Event, targets: Pending, inferred: int)

  function Take(m: Peers, t: Turn): Peers {
    ApplyEvent(m, t.targets, t.event, t.inferred)
  }

  /** The worker applies events one at a time, in queue order. */
  function Replay(m: Peers, ts: seq<Turn>): Peers
    decreases |ts|
  {
    if ts == [] then m else Replay(Take(m, ts[0]), ts[1..])
  }

  /** The events of one handle, in order. */
  function Of(ts: seq<Turn>, h: string): (r: seq<Turn>)
    ensures forall t :: t in r ==> t in ts && t.event.handle == h
  {
    if ts == [] then []
    else (if ts[0].event.handle == h then [ts[0]] else []) + Of(ts[1..], h)
  }

  function Kinds(ts: seq<Turn>): seq<Kind> {
    if ts == [] then [] else [ts[0].event.kind] + Kinds(ts[1..])
  }

  predicate NonDecreasing(ts: seq<Turn>) {
    forall i, j :: 0 <= i < j < |ts| ==> ts[i].event.timestamp <= ts[j].event.timestamp
  }

  function KindOf(e: Lifecycle.PeerEvent): Kind {
    match e case Ready => Ready case Lost => Lost case Removed => Removed
  }

  function FromBlock(t: seq<Lifecycle.PeerEvent>): seq<Kind> {
    seq(|t|, i requires 0 <= i < |t| => KindOf(t[i]))
  }

  /** What a handle's record should say after the kinds in `ks`. */
  predicate Shows(m: Peers, h: string, ks: seq<Kind>) {
    if ks == [] || ks[|ks| - 1].Removed? then h !in m
    else h in m && (m[h].callable <==> ks[|ks| - 1].Ready?)
  }

  predicate Grammar(ks: seq<Kind>) {
    ks in {[], [Ready], [Ready, Lost], [Ready, Removed], [Ready, Lost, Removed]}
  }

  lemma OtherHandle(m: Peers, t: Turn, h: string)
    requires t.event.handle != h
    ensures (h in Take(m, t) <==> h in m) && (h in m ==> Take(m, t)[h] == m[h])
  {
  }

  /** Only the events of `h` matter to the record of `h`. */
  lemma {:induction false} ReplayLocal(m1: Peers, m2: Peers, ts: seq<Turn>, h: string)
    requires (h in m1 <==> h in m2) && (h in m1 ==> m1[h] == m2[h])
    ensures var a, b := Replay(m1, ts), Replay(m2, Of(ts, h));
            (h in a <==> h in b) && (h in a ==> a[h] == b[h])
    decreases |ts|
  {
    if ts != [] {
      var n1 := Take(m1, ts[0]);
      if ts[0].event.handle == h {
        assert Of(ts, h)[1..] == Of(ts[1..], h);
        ReplayLocal(n1, Take(m2, ts[0]), ts[1..], h);
      } else {
        OtherHandle(m1, ts[0], h);
        assert Of(ts, h) == Of(ts[1..], h);
        ReplayLocal(n1, m2, ts[1..], h);
      }
    }
  }

  lemma KindsAt(ts: seq<Turn>)
    ensures |Kinds(ts)| == |ts|
    ensures forall i :: 0 <= i < |ts| ==> Kinds(ts)[i] == ts[i].event.kind
  {
  }

  /** A handle's own events, replayed alone. */
  lemma ReplayTrace(ts: seq<Turn>, h: string)
    requires h != "" && (forall t :: t in ts ==> t.event.handle == h)
    requires Grammar(Kinds(ts)) && NonDecreasing(ts)
    ensures Shows(Replay(map[], ts), h, Kinds(ts))
  {
    KindsAt(ts);
    if |ts| >= 1 {
      var m1 := Take(map[], ts[0]);
      assert Replay(map[], ts) == Replay(m1, ts[1..]);
      if |ts| >= 2 {
        var m2 := Take(m1, ts[1]);
        assert ts[1..][0] == ts[1] && ts[1..][1..] == ts[2..];
        assert Replay(m1, ts[1..]) == Replay(m2, ts[2..]);
        if |ts| >= 3 {
          assert Replay(m2, ts[2..]) == Take(m2, ts[2]);
        }
      }
    }
  }

  lemma BlockGrammar(ready: bool, lost: bool, removed: bool)
    ensures Grammar(FromBlock(Lifecycle.Story(ready, lost, removed)))
    ensures ready && removed ==>
              var ks := FromBlock(Lifecycle.Story(ready, lost, removed)); ks != [] && ks[|ks| - 1].Removed?
    ensures !ready ==> FromBlock(Lifecycle.Story(ready, lost, removed)) == []
  {
    var ks := FromBlock(Lifecycle.Story(ready, lost, removed));
    assert ks == if !ready then []
                 else if lost then (if removed then [Ready, Lost, Removed] else [Ready, Lost])
                 else if removed then [Ready, Removed] else [Ready];
  }

  /** Whatever run a block went through, however its events interleave with those
      of other blocks and whatever targets are remembered in between, the table
      ends up holding its handle as callable exactly between READY and LOST, and
      not at all after REMOVED. */
  lemma PeerTableFollowsBlocks(h: Lifecycle.Held, ops: seq<Lifecycle.Op>, h': Lifecycle.Held,
                               ts: seq<Turn>, handle: string)
    requires Lifecycle.Begins(h) && Lifecycle.Reaches(h, ops, h')
    requires handle != ""
    requires Kinds(Of(ts, handle)) == FromBlock(h'.b.said.trace)
    requires NonDecreasing(Of(ts, handle))
    ensures Shows(Replay(map[], ts), handle, FromBlock(h'.b.said.trace))
    ensures h'.b.freed > 0 ==> handle !in Replay(map[], ts)
  {
    Lifecycle.RunKeeps(h, ops, h');
    BlockGrammar(h'.b.said.ready, h'.b.said.lost, h'.b.said.removed);
    ReplayLocal(map[], map[], ts, handle);
    ReplayTrace(Of(ts, handle), handle);
  }

  /** The last runtime id an event named, or the one known before. */
  function LatestRuntime(ts: seq<Turn>, known: string): string
    decreases |ts|
  {
    if ts == [] then known else LatestRuntime(ts[1..], Or(ts[0].event.runtimeId, known))
  }

  /** Every value an endpoint field had is still there, or replaced by another. */
  predicate KeepsFields(a: Endpoint, b: Endpoint) {
    forall k :: k in a && a[k] != "" ==> k in b && b[k] != ""
  }

  lemma TakeFollows(m: Peers, t: Turn, h: string)
    requires h != "" && h in m && m[h].runtimeId != ""
    requires t.event.handle == h && !t.event.kind.Removed? && m[h].lastSeen <= t.event.timestamp
    ensures var m' := Take(m, t);
            && h in m' && m'[h].runtimeId == Or(t.event.runtimeId, m[h].runtimeId)
            && m'[h].callable == !t.event.kind.Lost? && m'[h].lastSeen == t.event.timestamp
            && KeepsFields(m[h].endpoint, m'[h].endpoint)
  {
  }

  lemma LaterTurns(ts: seq<Turn>)
    requires ts != [] && NonDecreasing(ts)
    ensures NonDecreasing(ts[1..]) && forall t :: t in ts[1..] ==> t in ts && ts[0].event.timestamp <= t.event.timestamp
  {
    assert forall i :: 0 <= i < |ts| - 1 ==> ts[1..][i] == ts[i + 1];
  }

  /** Through any events of its handle short of a removal, in time order, a record
      follows them: it is callable unless the last one is a loss, carries the last
      runtime id named, is as recent as the last event, and never loses a value of
      an endpoint field. */
  lemma {:induction false} RecordFollowsEvents(m: Peers, ts: seq<Turn>, h: string)
    requires h != "" && h in m && m[h].runtimeId != ""
    requires forall t :: t in ts ==>
               t.event.handle == h && !t.event.kind.Removed? && m[h].lastSeen <= t.event.timestamp
    requires NonDecreasing(ts)
    ensures var m' := Replay(m, ts);
            && h in m' && m'[h].runtimeId == LatestRuntime(ts, m[h].runtimeId)
            && m'[h].callable == (if ts == [] then m[h].callable else !ts[|ts| - 1].event.kind.Lost?)
            && m'[h].lastSeen == (if ts == [] then m[h].lastSeen else ts[|ts| - 1].event.timestamp)
            && KeepsFields(m[h].endpoint, m'[h].endpoint)
    decreases |ts|
  {
    if ts != [] {
      assert ts[0] in ts;
      TakeFollows(m, ts[0], h);
      LaterTurns(ts);
      RecordFollowsEvents(Take(m, ts[0]), ts[1..], h);
    }
  }

  /** Every record is stored under its own handle. */
  predicate Keyed(m: Peers) {
    forall h :: h in m ==> m[h].handle == h
  }

  lemma {:induction false} ReplayKeyed(m: Peers, ts: seq<Turn>)
    requires Keyed(m)
    ensures Keyed(Replay(m, ts))
    decreases |ts|
  {
    if ts != [] {
      assert Keyed(Take(m, ts[0]));
      ReplayKeyed(Take(m, ts[0]), ts[1..]);
    }
  }

  /** So no lookup hands out a block that was lost or freed: whatever record a
      caller is given, the last thing its block reported is READY. */
  lemma LookupFindsOnlyReady(h: Lifecycle.Held, ops: seq<Lifecycle.Op>, h': Lifecycle.Held,
                             ts: seq<Turn>, r: Record, w: Wanted, direction: string)
    requires Lifecycle.Begins(h) && Lifecycle.Reaches(h, ops, h')
    requires Holds(Replay(map[], ts), r) && RecordMatches(r, w, direction) && r.handle != ""
    requires Kinds(Of(ts, r.handle)) == FromBlock(h'.b.said.trace)
    requires NonDecreasing(Of(ts, r.handle))
    ensures h'.b.said.trace == [Lifecycle.Ready] && h'.b.freed == 0
    ensures w.runtimeId != "" ==> r.runtimeId == w.runtimeId
  {
    ReplayKeyed(map[], ts);
    PeerTableFollowsBlocks(h, ops, h', ts, r.handle);
    Lifecycle.EventGrammar(h, ops, h');
    var ks := FromBlock(h'.b.said.trace);
    assert |ks| == |h'.b.said.trace| && forall i :: 0 <= i < |ks| ==> ks[i] == KindOf(h'.b.said.trace[i]);
  }
}

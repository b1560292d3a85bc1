/**
  The RMA rendezvous: a process registers a copy of a payload, the peer reads it
  and acknowledges, and the registration goes away - by acknowledgement, by
  discard, or at teardown.
 */
module Rma {
  import opened Common
  import opened Wire

  datatype Region = Region(desc: Desc, bytes: seq<byte>)

  /** One endpoint lifetime, from initialisation to teardown. */
  datatype Endpoint = Endpoint(
    up: bool,
    rmaCapable: bool,
    regions: seq<Region>,
    nextHandle: nat,
    nextKey: nat)

  datatype Error = BadParam | Fail | OutOfMemory

  /** What the provider makes of one registration: it may fail, choose the key
      itself, and it decides how the region is addressed. The last field says
      whether there is memory left for the descriptor's text. */
  datatype Provider = Provider(memory: bool, accepts: bool, key: Option<nat>, addr: nat, text: bool)

  const Fresh := Endpoint(true, true, [], 1, 1)

  function Key(e: Endpoint, p: Provider): nat {
    if p.key.Some? then p.key.value % U64 else e.nextKey
  }

  /** Keys are unique among live registrations; a collision is refused. */
  predicate KeyTaken(e: Endpoint, key: nat) {
    exists r :: r in e.regions && r.desc.key == key
  }

  predicate Accepts(e: Endpoint, bytes: seq<byte>, p: Provider) {
    0 < |bytes| < U64 && e.up && e.rmaCapable && p.memory && p.accepts && !KeyTaken(e, Key(e, p))
  }

  function NewDesc(e: Endpoint, bytes: seq<byte>, p: Provider): Desc {
    Desc(e.nextHandle, Key(e, p), p.addr % U64, |bytes|)
  }

  /** ofi_mr_reg_common with a copy: the key counter moves on every attempt that
      reaches the provider, the handle counter only on success. */
  function Register(e: Endpoint, bytes: seq<byte>, p: Provider): Endpoint {
    if Accepts(e, bytes, p) then
      e.(regions := e.regions + [Region(NewDesc(e, bytes, p), bytes)],
         nextHandle := (e.nextHandle + 1) % U64, nextKey := (e.nextKey + 1) % U64)
    else if 0 < |bytes| < U64 && e.up && e.rmaCapable && p.memory then e.(nextKey := (e.nextKey + 1) % U64)
    else e
  }

  /** Index of the first region with this handle, or the length. */
  function Find(rs: seq<Region>, handle: nat): (i: nat)
    ensures i <= |rs| && (i < |rs| ==> rs[i].desc.handle == handle)
    ensures forall j :: 0 <= j < i ==> rs[j].desc.handle != handle
  {
    if rs == [] || rs[0].desc.handle == handle then 0 else 1 + Find(rs[1..], handle)
  }

  function Drop(rs: seq<Region>, handle: nat): seq<Region> {
    var i := Find(rs, handle);
    if i < |rs| then rs[..i] + rs[i + 1..] else rs
  }

  predicate Releases(e: Endpoint, handle: nat) {
    handle != 0 && Find(e.regions, handle) < |e.regions|
  }

  /** defw_transport_ofi_mr_release */
  function Release(e: Endpoint, handle: nat): Endpoint {
    if Releases(e, handle) then e.(regions := Drop(e.regions, handle)) else e
  }

  /** defw_rma_publish: register, then print the descriptor; without memory for
      the text the registration is taken back. */
  predicate Publishes(e: Endpoint, bytes: seq<byte>, p: Provider) {
    Accepts(e, bytes, p) && p.text
  }

  function Published(e: Endpoint, bytes: seq<byte>, p: Provider): Endpoint {
    if Accepts(e, bytes, p) && !p.text then Release(Register(e, bytes, p), e.nextHandle) else Register(e, bytes, p)
  }

  /** What an fi_read of a descriptor returns: the bytes of the live region with
      that key, from the offset the address names. */
  function Read(rs: seq<Region>, d: Desc): Option<seq<byte>> {
    if rs == [] then None
    else if rs[0].desc.key == d.key then
      if rs[0].desc.addr <= d.addr && d.addr - rs[0].desc.addr + d.len <= |rs[0].bytes| then
        Some(rs[0].bytes[d.addr - rs[0].desc.addr..][..d.len])
      else None
    else Read(rs[1..], d)
  }

  /** A registration succeeds if and only if there are bytes, the endpoint can do
      RMA, memory and provider agree, and no registered region has the key. It then
      adds one region, with the next handle, that key and the bytes as they are; the
      key counter moves whenever the provider was asked. */
  lemma RegisterExact(e: Endpoint, bytes: seq<byte>, p: Provider)
    ensures var key := match p.key case Some(k) => k % U64 case None => e.nextKey;
            var asked := |bytes| > 0 && |bytes| < U64 && e.up && e.rmaCapable && p.memory;
            var done := asked && p.accepts && forall r :: r in e.regions ==> r.desc.key != key;
            && (Accepts(e, bytes, p) <==> done)
            && Register(e, bytes, p).regions ==
               e.regions + (if done then [Region(Desc(e.nextHandle, key, p.addr % U64, |bytes|), bytes)] else [])
            && Register(e, bytes, p).nextHandle == (if done then (e.nextHandle + 1) % U64 else e.nextHandle)
            && Register(e, bytes, p).nextKey == (if asked then (e.nextKey + 1) % U64 else e.nextKey)
            && Register(e, bytes, p).up == e.up && Register(e, bytes, p).rmaCapable == e.rmaCapable
  {
  }

  /** A release takes the first region of its handle out of the list and leaves the
      others in order; handle 0 and an unknown handle change nothing. */
  lemma ReleaseRemoves(e: Endpoint, handle: nat, i: nat)
    requires i <= |e.regions| && forall j :: 0 <= j < i ==> e.regions[j].desc.handle != handle
    requires i < |e.regions| ==> e.regions[i].desc.handle == handle
    ensures Release(e, handle) ==
            if i < |e.regions| && handle != 0 then e.(regions := e.regions[..i] + e.regions[i + 1..]) else e
  {
  }

  // ---------------------------------------------------------------- the registry object

  class MrRegistry {
    var up: bool
    var rmaCapable: bool
    var regions: seq<Region>
    var nextHandle: nat
    var nextKey: nat

    constructor ()
      ensures State() == Fresh
    {
      up, rmaCapable, regions, nextHandle, nextKey := true, true, [], 1, 1;
    }

    function State(): Endpoint
      reads this
    {
      Endpoint(up, rmaCapable, regions, nextHandle, nextKey)
    }

    method RegisterCopy(bytes: seq<byte>, p: Provider) returns (r: Result<Desc, Error>)
      modifies this
      ensures State() == Register(old(State()), bytes, p)
      ensures r.Ok? <==> Accepts(old(State()), bytes, p)
      ensures r.Ok? ==> r.value == NewDesc(old(State()), bytes, p)
      ensures r.Err? ==> r.error == if |bytes| == 0 || |bytes| >= U64 then BadParam
                                    else if old(up) && old(rmaCapable) && !p.memory then OutOfMemory else Fail
    {
      if |bytes| == 0 || |bytes| >= U64 { return Err(BadParam); }
      if !up || !rmaCapable { return Err(Fail); }
      if !p.memory { return Err(OutOfMemory); }
      var key := if p.key.Some? then p.key.value % U64 else nextKey;
      nextKey := (nextKey + 1) % U64;
      if !p.accepts || exists r :: r in regions && r.desc.key == key { return Err(Fail); }
      var desc := Desc(nextHandle, key, p.addr % U64, |bytes|);
      nextHandle := (nextHandle + 1) % U64;
      regions := regions + [Region(desc, bytes)];
      return Ok(desc);
    }

    /** A handle that is not registered - never issued, or released before - is
        refused and nothing is touched. */
    method ReleaseHandle(handle: nat) returns (ok: bool)
      modifies `regions
      ensures State() == Release(old(State()), handle)
      ensures ok == Releases(old(State()), handle)
    {
      if handle == 0 { return false; }
      var i := 0;
      while i < |regions|
        invariant 0 <= i <= |regions|
        invariant forall j :: 0 <= j < i ==> regions[j].desc.handle != handle
      {
        if regions[i].desc.handle == handle { break; }
        i := i + 1;
      }
      if i == |regions| { return false; }
      regions := regions[..i] + regions[i + 1..];
      return true;
    }

    method PublishCopy(bytes: seq<byte>, p: Provider) returns (r: Result<string, Error>)
      modifies this
      ensures State() == Published(old(State()), bytes, p)
      ensures r.Ok? <==> Publishes(old(State()), bytes, p)
      ensures r.Ok? ==> r.value == Printed(NewDesc(old(State()), bytes, p))
    {
      var desc := RegisterCopy(bytes, p);
      if desc.Err? { return Err(desc.error); }
      if !p.text {
        var _ := ReleaseHandle(desc.value.handle);
        return Err(OutOfMemory);
      }
      return Ok(Printed(desc.value));
    }

    /** Teardown drops every region still registered. */
    method ReleaseAll() returns (n: nat)
      modifies `regions
      ensures regions == [] && n == |old(regions)|
    {
      n := 0;
      while regions != []
        invariant n + |regions| == |old(regions)|
        decreases |regions|
      {
        regions := regions[1..];
        n := n + 1;
      }
    }
  }

  // ---------------------------------------------------------------- runs

  datatype Cause = Acknowledged | Discarded | TornDown

  datatype Op =
    | Publish(bytes: seq<byte>, p: Provider)
    | Ack(body: seq<byte>)
    | Discard(handle: nat)
    | Teardown

  /** An endpoint with its history: what was issued, and what became of it. */
  datatype History = History(e: Endpoint, issued: seq<Region>, gone: seq<(nat, Cause)>)

  const Begin := History(Fresh, [], [])

  /** How often a handle occurs among regions, and among the departed. */
  function Count(rs: seq<Region>, k: nat): nat {
    if rs == [] then 0 else Count(rs[..|rs| - 1], k) + if rs[|rs| - 1].desc.handle == k then 1 else 0
  }

  function Departures(gone: seq<(nat, Cause)>, k: nat): nat {
    if gone == [] then 0 else Departures(gone[..|gone| - 1], k) + if gone[|gone| - 1].0 == k then 1 else 0
  }

  function Swept(rs: seq<Region>): seq<(nat, Cause)> {
    if rs == [] then [] else Swept(rs[..|rs| - 1]) + [(rs[|rs| - 1].desc.handle, TornDown)]
  }

  function Remove(h: History, handle: nat, cause: Cause): History {
    h.(e := Release(h.e, handle), gone := if Releases(h.e, handle) then h.gone + [(handle, cause)] else h.gone)
  }

  function Step(h: History, o: Op): History {
    match o
    case Publish(bytes, p) =>
      h.(e := Register(h.e, bytes, p),
         issued := if Accepts(h.e, bytes, p) then h.issued + [Region(NewDesc(h.e, bytes, p), bytes)] else h.issued)
    case Ack(body) => if |body| == 8 then Remove(h, AckHandle(body), Acknowledged) else h
    case Discard(handle) => Remove(h, handle, Discarded)
    case Teardown =>
      h.(e := h.e.(regions := [], up := false),
         gone := h.gone + Swept(h.e.regions))
  }

  function Steps(h: History, ops: seq<Op>): History
    decreases |ops|
  {
    if ops == [] then h else Steps(Step(h, ops[0]), ops[1..])
  }

  // ---------------------------------------------------------------- conservation

  lemma CountPush(rs: seq<Region>, r: Region, k: nat)
    ensures Count(rs + [r], k) == Count(rs, k) + if r.desc.handle == k then 1 else 0
  {
    assert (rs + [r])[..|rs|] == rs;
  }

  lemma DeparturesPush(gone: seq<(nat, Cause)>, g: (nat, Cause), k: nat)
    ensures Departures(gone + [g], k) == Departures(gone, k) + if g.0 == k then 1 else 0
  {
    assert (gone + [g])[..|gone|] == gone;
  }

  lemma {:induction false} CountAppend(a: seq<Region>, b: seq<Region>, k: nat)
    ensures Count(a + b, k) == Count(a, k) + Count(b, k)
    decreases |b|
  {
    if b == [] {
      assert a + b == a;
    } else {
      assert (a + b)[..|a + b| - 1] == a + b[..|b| - 1];
      CountAppend(a, b[..|b| - 1], k);
    }
  }

  lemma {:induction false} SweptCounts(gone: seq<(nat, Cause)>, rs: seq<Region>, k: nat)
    ensures Departures(gone + Swept(rs), k) == Departures(gone, k) + Count(rs, k)
    decreases |rs|
  {
    if rs == [] {
      assert gone + Swept(rs) == gone;
    } else {
      var rest, last := Swept(rs[..|rs| - 1]), (rs[|rs| - 1].desc.handle, TornDown);
      assert gone + (rest + [last]) == gone + rest + [last];
      DeparturesPush(gone + rest, last, k);
      SweptCounts(gone, rs[..|rs| - 1], k);
    }
  }

  lemma DropCounts(rs: seq<Region>, handle: nat, k: nat)
    requires Find(rs, handle) < |rs|
    ensures Count(rs, k) == Count(Drop(rs, handle), k) + if k == handle then 1 else 0
  {
    var i := Find(rs, handle);
    assert rs == rs[..i] + [rs[i]] + rs[i + 1..];
    CountAppend(rs[..i] + [rs[i]], rs[i + 1..], k);
    CountPush(rs[..i], rs[i], k);
    CountAppend(rs[..i], rs[i + 1..], k);
  }

  /** Everything issued under a handle is registered or gone. */
  predicate Conserved(h: History, k: nat) {
    Count(h.issued, k) == Count(h.e.regions, k) + Departures(h.gone, k)
  }

  lemma StepConserves(h: History, o: Op, k: nat)
    requires Conserved(h, k)
    ensures Conserved(Step(h, o), k)
  {
    match o
    case Publish(bytes, p) =>
      CountPush(h.issued, Region(NewDesc(h.e, bytes, p), bytes), k);
      CountPush(h.e.regions, Region(NewDesc(h.e, bytes, p), bytes), k);
    case Ack(body) => if |body| == 8 { RemoveConserves(h, AckHandle(body), Acknowledged, k); }
    case Discard(handle) => RemoveConserves(h, handle, Discarded, k);
    case Teardown => SweptCounts(h.gone, h.e.regions, k);
  }

  lemma RemoveConserves(h: History, handle: nat, cause: Cause, k: nat)
    requires Conserved(h, k)
    ensures Conserved(Remove(h, handle, cause), k)
  {
    if Releases(h.e, handle) {
      DropCounts(h.e.regions, handle, k);
      DeparturesPush(h.gone, (handle, cause), k);
    }
  }

  lemma {:induction false} StepsConserve(h: History, ops: seq<Op>, k: nat)
    requires Conserved(h, k)
    ensures Conserved(Steps(h, ops), k)
    decreases |ops|
  {
    if ops != [] {
      StepConserves(h, ops[0], k);
      StepsConserve(Step(h, ops[0]), ops[1..], k);
    }
  }

  // ---------------------------------------------------------------- handles, keys, contents

  predicate Numbered(issued: seq<Region>) {
    forall i :: 0 <= i < |issued| ==> issued[i].desc.handle == (i + 1) % U64
  }

  predicate KeysDistinct(rs: seq<Region>) {
    forall i, j :: 0 <= i < j < |rs| ==> rs[i].desc.key != rs[j].desc.key
  }

  predicate Whole(r: Region) {
    DescOk(r.desc) && 0 < r.desc.len == |r.bytes|
  }

  predicate Sound(h: History) {
    && h.e.nextHandle == (|h.issued| + 1) % U64 && h.e.nextKey < U64
    && Numbered(h.issued)
    && KeysDistinct(h.e.regions)
    && (forall r :: r in h.issued ==> Whole(r))
    && (forall r :: r in h.e.regions ==> r in h.issued)
  }

  lemma Wraps(n: nat)
    ensures (n % U64 + 1) % U64 == (n + 1) % U64
  {
  }

  lemma PublishSound(h: History, bytes: seq<byte>, p: Provider)
    requires Sound(h)
    ensures Sound(Step(h, Publish(bytes, p)))
  {
    var h' := Step(h, Publish(bytes, p));
    if Accepts(h.e, bytes, p) {
      var r := Region(NewDesc(h.e, bytes, p), bytes);
      assert forall i :: 0 <= i < |h.e.regions| ==>
               h.e.regions[i] in h.e.regions && h.e.regions[i].desc.key != r.desc.key;
      assert forall x :: x in h'.issued ==> x in h.issued || x == r;
      assert forall x :: x in h'.e.regions ==> x in h.e.regions || x == r;
      assert h'.e.nextHandle == (|h'.issued| + 1) % U64 by { Wraps(|h.issued| + 1); }
      assert Numbered(h'.issued) by { NumberedPush(h.issued, r); }
    }
  }

  lemma NumberedPush(issued: seq<Region>, r: Region)
    requires Numbered(issued) && r.desc.handle == (|issued| + 1) % U64
    ensures Numbered(issued + [r])
  {
  }

  lemma RemoveSound(h: History, handle: nat, cause: Cause)
    requires Sound(h)
    ensures Sound(Remove(h, handle, cause))
  {
    if Releases(h.e, handle) {
      var rs, rs' := h.e.regions, Drop(h.e.regions, handle);
      var i := Find(rs, handle);
      assert forall j :: 0 <= j < |rs'| ==> rs'[j] == rs[if j < i then j else j + 1];
    }
  }

  lemma StepSound(h: History, o: Op)
    requires Sound(h)
    ensures Sound(Step(h, o))
  {
    match o
    case Publish(bytes, p) => PublishSound(h, bytes, p);
    case Ack(body) => if |body| == 8 { RemoveSound(h, AckHandle(body), Acknowledged); }
    case Discard(handle) => RemoveSound(h, handle, Discarded);
    case Teardown =>
  }

  lemma {:induction false} StepsSound(h: History, ops: seq<Op>)
    requires Sound(h)
    ensures Sound(Steps(h, ops))
    decreases |ops|
  {
    if ops != [] {
      StepSound(h, ops[0]);
      StepsSound(Step(h, ops[0]), ops[1..]);
    }
  }

  // ---------------------------------------------------------------- results

  predicate NeverReused(rs: seq<Region>) {
    && (forall i, j :: 0 <= i < j < |rs| ==> rs[i].desc.handle != rs[j].desc.handle)
    && (forall i :: 0 <= i < |rs| ==> rs[i].desc.handle != 0)
  }

  lemma NumberedPlain(issued: seq<Region>)
    requires Numbered(issued) && |issued| < U64
    ensures forall i :: 0 <= i < |issued| ==> issued[i].desc.handle == i + 1
  {
  }

  lemma SameHandle(issued: seq<Region>, x: Region, y: Region)
    requires Numbered(issued) && |issued| < U64
    requires x in issued && y in issued && x.desc.handle == y.desc.handle
    ensures x == y
  {
    NumberedPlain(issued);
  }

  /** Handles are never reused, and never the reserved zero, exactly as long as
      the 64-bit counter has not wrapped. */
  lemma HandlesUniqueIff(ops: seq<Op>)
    ensures var issued := Steps(Begin, ops).issued; NeverReused(issued) <==> |issued| < U64
  {
    StepsSound(Begin, ops);
    var issued := Steps(Begin, ops).issued;
    if |issued| < U64 {
      NumberedPlain(issued);
    } else {
      assert issued[U64 - 1].desc.handle == 0;
    }
  }

  lemma {:induction false} CountNumbered(issued: seq<Region>, k: nat)
    requires Numbered(issued) && |issued| < U64
    ensures Count(issued, k) == if 1 <= k <= |issued| then 1 else 0
    decreases |issued|
  {
    if issued != [] { CountNumbered(issued[..|issued| - 1], k); }
  }

  lemma {:induction false} CountedIn(rs: seq<Region>, k: nat)
    ensures Count(rs, k) > 0 <==> exists r :: r in rs && r.desc.handle == k
    decreases |rs|
  {
    if rs != [] {
      CountedIn(rs[..|rs| - 1], k);
      assert forall r :: r in rs <==> r in rs[..|rs| - 1] || r == rs[|rs| - 1];
    }
  }

  lemma FoundCounted(rs: seq<Region>, k: nat)
    ensures Find(rs, k) < |rs| ==> Count(rs, k) > 0
  {
    CountedIn(rs, k);
    var i := Find(rs, k);
    if i < |rs| { assert rs[i] in rs; }
  }

  /** In one endpoint lifetime every issued region is registered, with the bytes
      it was published with, until exactly one of acknowledgement, discard or
      teardown takes it; after that it never comes back. */
  lemma RegionConservation(ops: seq<Op>, i: nat)
    requires i < |Steps(Begin, ops).issued| < U64
    ensures var h := Steps(Begin, ops);
            var r := h.issued[i];
            && Count(h.e.regions, r.desc.handle) + Departures(h.gone, r.desc.handle) == 1
            && (r in h.e.regions <==> Departures(h.gone, r.desc.handle) == 0)
  {
    var h := Steps(Begin, ops);
    StepsSound(Begin, ops);
    StepsConserve(Begin, ops, h.issued[i].desc.handle);
    ExactlyOnce(h, i);
  }

  lemma ExactlyOnce(h: History, i: nat)
    requires Sound(h) && i < |h.issued| < U64 && Conserved(h, h.issued[i].desc.handle)
    ensures var r := h.issued[i];
            && Count(h.e.regions, r.desc.handle) + Departures(h.gone, r.desc.handle) == 1
            && (r in h.e.regions <==> Departures(h.gone, r.desc.handle) == 0)
  {
    var r := h.issued[i];
    var k := r.desc.handle;
    assert Count(h.issued, k) == 1 by {
      NumberedPlain(h.issued);
      CountNumbered(h.issued, k);
    }
    CountedIn(h.e.regions, k);
    if Count(h.e.regions, k) > 0 {
      var live :| live in h.e.regions && live.desc.handle == k;
      SameHandle(h.issued, live, r);
    }
  }

  /** Nothing is ever released that was not issued. */
  lemma OnlyIssuedDepart(ops: seq<Op>, k: nat)
    requires |Steps(Begin, ops).issued| < U64 && !(1 <= k <= |Steps(Begin, ops).issued|)
    ensures Departures(Steps(Begin, ops).gone, k) == 0 && !Releases(Steps(Begin, ops).e, k)
  {
    var h := Steps(Begin, ops);
    assert Count(h.issued, k) == 0 by {
      StepsSound(Begin, ops);
      CountNumbered(h.issued, k);
    }
    StepsConserve(Begin, ops, k);
    FoundCounted(h.e.regions, k);
  }

  lemma DropKeepsOthers(rs: seq<Region>, handle: nat, r: Region)
    requires r.desc.handle != handle
    ensures r in Drop(rs, handle) <==> r in rs
  {
    var i := Find(rs, handle);
    if i < |rs| {
      assert rs == rs[..i] + [rs[i]] + rs[i + 1..];
    }
  }

  lemma AtMostOnce(ops: seq<Op>, k: nat)
    requires |Steps(Begin, ops).issued| < U64
    ensures Count(Steps(Begin, ops).e.regions, k) <= 1
  {
    StepsSound(Begin, ops);
    StepsConserve(Begin, ops, k);
    CountNumbered(Steps(Begin, ops).issued, k);
  }

  /** Releasing a handle a second time fails and changes nothing, and no release
      touches the region of another handle. */
  lemma ReleaseOnce(ops: seq<Op>, handle: nat, r: Region)
    requires |Steps(Begin, ops).issued| < U64
    ensures var e := Steps(Begin, ops).e;
            var e' := Release(e, handle);
            && !Releases(e', handle) && Release(e', handle) == e'
            && (r.desc.handle != handle ==> (r in e'.regions <==> r in e.regions))
  {
    var e := Steps(Begin, ops).e;
    if r.desc.handle != handle { DropKeepsOthers(e.regions, handle, r); }
    if Releases(e, handle) {
      AtMostOnce(ops, handle);
      DropCounts(e.regions, handle, handle);
      var rest := Drop(e.regions, handle);
      FoundCounted(rest, handle);
    }
  }

  /** Operations that leave the region with this handle alone. */
  predicate Spares(o: Op, handle: nat) {
    match o
    case Publish(_, _) => true
    case Ack(body) => |body| == 8 ==> AckHandle(body) != handle
    case Discard(k) => k != handle
    case Teardown => false
  }

  lemma SparedStays(h: History, o: Op, r: Region)
    requires r in h.e.regions && Spares(o, r.desc.handle)
    ensures r in Step(h, o).e.regions
  {
    match o
    case Ack(body) => if |body| == 8 { DropKeepsOthers(h.e.regions, AckHandle(body), r); }
    case Discard(k) => DropKeepsOthers(h.e.regions, k, r);
    case Publish(_, _) =>
  }

  /** A region stays registered until something releases its handle. */
  lemma {:induction false} LiveUntilReleased(h: History, ops: seq<Op>, r: Region)
    requires r in h.e.regions && forall o :: o in ops ==> Spares(o, r.desc.handle)
    ensures r in Steps(h, ops).e.regions
    decreases |ops|
  {
    if ops != [] {
      SparedStays(h, ops[0], r);
      LiveUntilReleased(Step(h, ops[0]), ops[1..], r);
    }
  }

  lemma {:induction false} ReadExact(rs: seq<Region>, r: Region)
    requires KeysDistinct(rs) && r in rs && r.desc.len == |r.bytes|
    ensures Read(rs, r.desc) == Some(r.bytes)
    decreases |rs|
  {
    if rs[0] == r {
      assert r.bytes[0..][..|r.bytes|] == r.bytes;
    } else {
      var i :| 0 <= i < |rs| && rs[i] == r;
      assert rs[0].desc.key != rs[i].desc.key;
      assert rs[1..][i - 1] == r;
      ReadExact(rs[1..], r);
    }
  }

  lemma {:induction false} StepsAppend(h: History, a: seq<Op>, b: seq<Op>)
    ensures Steps(h, a + b) == Steps(Steps(h, a), b)
    decreases |a|
  {
    if a == [] {
      assert a + b == b;
    } else {
      assert (a + b)[1..] == a[1..] + b;
      StepsAppend(Step(h, a[0]), a[1..], b);
    }
  }

  /** A peer that fetches a published descriptor while its region is registered
      gets exactly the bytes copied at publish, whatever else was published,
      acknowledged or discarded in between; the acknowledgement it then sends
      releases that region. */
  lemma FetchReturnsPublished(before: seq<Op>, bytes: seq<byte>, p: Provider, after: seq<Op>)
    requires Accepts(Steps(Begin, before).e, bytes, p)
    requires |Steps(Begin, before).issued| < U64 - 1
    requires forall o :: o in after ==> Spares(o, Steps(Begin, before).e.nextHandle)
    ensures var h := Steps(Begin, before);
            var d := NewDesc(h.e, bytes, p);
            var now := Steps(Step(h, Publish(bytes, p)), after).e;
            && DescOk(d)
            && Read(now.regions, d) == Some(bytes)
            && Releases(now, AckHandle(AckBody(d.handle)))
  {
    var h := Steps(Begin, before);
    var d := NewDesc(h.e, bytes, p);
    var r := Region(d, bytes);
    var h1 := Step(h, Publish(bytes, p));
    StepsSound(Begin, before);
    StepSound(h, Publish(bytes, p));
    assert DescOk(d) && d.handle != 0;
    LiveUntilReleased(h1, after, r);
    StepsSound(h1, after);
    var now := Steps(h1, after).e;
    ReadExact(now.regions, r);
    AckRoundTrip(d.handle);
    var i :| 0 <= i < |now.regions| && now.regions[i] == r;
  }

  // ---------------------------------------------------------------- descriptors that outlive their region

  /** The provider leaves the key to the endpoint's counter. */
  predicate CounterKeys(ops: seq<Op>) {
    forall o :: o in ops && o.Publish? ==> o.p.key.None?
  }

  predicate KeysRise(h: History) {
    && (forall i, j :: 0 <= i < j < |h.issued| ==> h.issued[i].desc.key < h.issued[j].desc.key)
    && (forall i :: 0 <= i < |h.issued| ==> h.issued[i].desc.key < h.e.nextKey)
  }

  lemma {:induction false} KeysNeverReused(h: History, ops: seq<Op>)
    requires KeysRise(h) && CounterKeys(ops) && h.e.nextKey + |ops| < U64
    ensures KeysRise(Steps(h, ops))
    decreases |ops|
  {
    if ops != [] {
      var h' := Step(h, ops[0]);
      assert ops[0] in ops;
      assert KeysRise(h') && h'.e.nextKey <= h.e.nextKey + 1;
      KeysNeverReused(h', ops[1..]);
    }
  }

  lemma {:induction false} ReadFinds(rs: seq<Region>, d: Desc)
    requires Read(rs, d).Some?
    ensures exists r :: r in rs && r.desc.key == d.key
    decreases |rs|
  {
    if rs[0].desc.key != d.key {
      ReadFinds(rs[1..], d);
      var r :| r in rs[1..] && r.desc.key == d.key;
      assert r in rs;
    } else {
      assert rs[0] in rs;
    }
  }

  lemma SameKey(h: History, x: Region, y: Region)
    requires KeysRise(h) && x in h.issued && y in h.issued && x.desc.key == y.desc.key
    ensures x == y
  {
  }

  /** The region holds the whole range a descriptor names. */
  predicate Covers(r: Region, d: Desc) {
    r.desc.key == d.key && r.desc.addr <= d.addr && d.addr - r.desc.addr + d.len <= |r.bytes|
  }

  function Slice(r: Region, d: Desc): seq<byte>
    requires Covers(r, d)
  {
    r.bytes[d.addr - r.desc.addr..][..d.len]
  }

  lemma {:induction false} ReadIff(rs: seq<Region>, d: Desc)
    requires KeysDistinct(rs)
    ensures Read(rs, d).Some? <==> exists r :: r in rs && Covers(r, d)
    ensures forall r :: r in rs && Covers(r, d) ==> Read(rs, d) == Some(Slice(r, d))
    decreases |rs|
  {
    if rs != [] {
      assert rs == [rs[0]] + rs[1..];
      if rs[0].desc.key == d.key {
        assert forall i :: 0 < i < |rs| ==> rs[0].desc.key != rs[i].desc.key;
        assert forall r :: r in rs && Covers(r, d) ==> r == rs[0];
        assert rs[0] in rs;
      } else {
        ReadIff(rs[1..], d);
      }
    }
  }

  /** In every run and for any keys: a fetch of a descriptor whose region is gone
      returns data if and only if a later region carries its key and covers its
      range, and then it returns that region's bytes. */
  lemma StaleFetchIff(ops: seq<Op>, i: nat)
    requires i < |Steps(Begin, ops).issued| && Steps(Begin, ops).issued[i] !in Steps(Begin, ops).e.regions
    ensures var h := Steps(Begin, ops);
            var d := h.issued[i].desc;
            && (Read(h.e.regions, d).Some? <==> exists r :: r in h.e.regions && Covers(r, d))
            && (forall r :: r in h.e.regions && Covers(r, d) ==>
                  r != h.issued[i] && Read(h.e.regions, d) == Some(Slice(r, d)))
  {
    StepsSound(Begin, ops);
    ReadIff(Steps(Begin, ops).e.regions, Steps(Begin, ops).issued[i].desc);
  }

  /** With counter keys, a fetch of any descriptor ever issued succeeds exactly
      when its own region is still registered, and then returns its bytes. */
  lemma StaleFetchFails(ops: seq<Op>, i: nat)
    requires CounterKeys(ops) && |ops| < U64 - 1 && i < |Steps(Begin, ops).issued|
    ensures var h := Steps(Begin, ops);
            var r := h.issued[i];
            Read(h.e.regions, r.desc) == if r in h.e.regions then Some(r.bytes) else None
  {
    KeysNeverReused(Begin, ops);
    StepsSound(Begin, ops);
    var h := Steps(Begin, ops);
    var r := h.issued[i];
    if r in h.e.regions {
      ReadExact(h.e.regions, r);
    } else if Read(h.e.regions, r.desc).Some? {
      ReadFinds(h.e.regions, r.desc);
      var x :| x in h.e.regions && x.desc.key == r.desc.key;
      SameKey(h, x, r);
    }
  }

  /** An input where it does: a provider that chooses the same key again. */
  lemma StaleFetchCanMislead()
    ensures var p := Provider(true, true, Some(7), 0, true);
            var h := Steps(Begin, [Publish([1], p), Discard(1), Publish([2], p)]);
            |h.issued| == 2 && Read(h.e.regions, h.issued[0].desc) == Some([2])
  {
    var p := Provider(true, true, Some(7), 0, true);
    var h1 := Step(Begin, Publish([1], p));
    assert h1.e.regions == [Region(Desc(1, 7, 0, 1), [1])];
    var h2 := Step(h1, Discard(1));
    assert h2.e.regions == [];
    var h3 := Step(h2, Publish([2], p));
    assert h3.e.regions == [Region(Desc(2, 7, 0, 1), [2])];
    StepsThree(Begin, Publish([1], p), Discard(1), Publish([2], p));
    assert [2][0..][..1] == [2];
  }

  lemma StepsThree(h: History, a: Op, b: Op, c: Op)
    ensures Steps(h, [a, b, c]) == Step(Step(Step(h, a), b), c)
  {
    StepsAppend(h, [a], [b, c]);
    StepsAppend(Step(h, a), [b], [c]);
    assert [a] + [b, c] == [a, b, c] && [b] + [c] == [b, c];
    StepsOne(h, a);
    StepsOne(Step(h, a), b);
    StepsOne(Step(Step(h, a), b), c);
  }

  lemma StepsOne(h: History, a: Op)
    ensures Steps(h, [a]) == Step(h, a)
  {
    assert [a][1..] == [];
  }
}

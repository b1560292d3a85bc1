/**
  How attachments travel: each payload goes either inline as base64 or by
  descriptor, read by the peer from the sender's registered memory.
 */
module Transfer {
  import opened Common
  import opened Wire
  import opened Rma
  import opened Attachments

  /** Whether the peer can read our memory, and from which size on it should. */
  datatype Route = Route(usable: bool, threshold: int)

  predicate Tries(rt: Route, data: seq<byte>) {
    rt.usable && |data| >= rt.threshold
  }

  function DescVal(d: Desc): Val {
    Dict([Text("handle"), Text("key"), Text("addr"), Text("len")], [Int(d.handle), Int(d.key), Int(d.addr), Int(d.len)])
  }

  function Field(v: Val, name: string): Option<nat>
    requires v.Dict?
  {
    match Lookup(v, Text(name))
    case Some(Int(n)) => if 0 <= n < U64 then Some(n) else None
    case _ => None
  }

  function DescOf(v: Val): Option<Desc>
    requires v.Dict?
  {
    match (Field(v, "handle"), Field(v, "key"), Field(v, "addr"), Field(v, "len"))
    case (Some(h), Some(k), Some(a), Some(l)) => Some(Desc(h, k, a, l))
    case _ => None
  }

  /** One entry of the payload list: the data, where to read it, or neither. */
  datatype Payload = Inline(s: string) | Remote(d: Desc) | Bad

  function PayloadVal(p: Payload): Val {
    match p
    case Inline(s) => Text(s)
    case Remote(d) => DescVal(d)
    case Bad => Int(0)
  }

  function PayloadOf(v: Val): Payload {
    if v.Dict? then
      match DescOf(v)
      case Some(d) => Remote(d)
      case None => Bad
    else if v.Text? then Inline(v.s)
    else Bad
  }

  lemma DescFieldsOf(d: Desc)
    ensures var v := DescVal(d);
            && Lookup(v, Text("handle")) == Some(Int(d.handle)) && Lookup(v, Text("key")) == Some(Int(d.key))
            && Lookup(v, Text("addr")) == Some(Int(d.addr)) && Lookup(v, Text("len")) == Some(Int(d.len))
  {
    var v := DescVal(d);
    assert |"handle"| == 6 && |"key"| == 3 && |"addr"| == 4 && |"len"| == 3 && "key"[0] != "len"[0];
    FourKeys(v);
    assert v.keys[0] == Text("handle") && v.keys[1] == Text("key")
           && v.keys[2] == Text("addr") && v.keys[3] == Text("len");
  }

  /** The receiver sees the payload the sender wrote. */
  lemma PayloadRoundTrip(p: Payload)
    requires p.Remote? ==> DescOk(p.d)
    ensures PayloadOf(PayloadVal(p)) == p
  {
    if p.Remote? { DescValRoundTrip(p.d); }
  }

  /** A field is read exactly if it is an unsigned 64-bit number. */
  lemma FieldIs(v: Val, name: string, n: int)
    requires v.Dict? && Lookup(v, Text(name)) == Some(Int(n))
    ensures Field(v, name) == if 0 <= n < 18446744073709551616 then Some(n as nat) else None
  {
  }

  lemma DescValRoundTrip(d: Desc)
    requires DescOk(d)
    ensures DescOf(DescVal(d)) == Some(d)
  {
    var v := DescVal(d);
    assert Field(v, "handle") == Some(d.handle) && Field(v, "key") == Some(d.key)
        && Field(v, "addr") == Some(d.addr) && Field(v, "len") == Some(d.len) by {
      DescFieldsOf(d);
      FieldIs(v, "handle", d.handle);
      FieldIs(v, "key", d.key);
      FieldIs(v, "addr", d.addr);
      FieldIs(v, "len", d.len);
    }
  }

  // ---------------------------------------------------------------- encoding

  /** The endpoint, payload list and published handles so far. */
  datatype Sent = Sent(e: Endpoint, payloads: seq<Payload>, published: seq<nat>)

  function EncodeOne(s: Sent, data: seq<byte>, p: Provider, rt: Route): Sent {
    if Tries(rt, data) && Publishes(s.e, data, p) then
      Sent(Published(s.e, data, p), s.payloads + [Remote(NewDesc(s.e, data, p))], s.published + [s.e.nextHandle])
    else
      Sent(if Tries(rt, data) then Published(s.e, data, p) else s.e, s.payloads + [Inline(Encode64(data))], s.published)
  }

  function EncodeAll(e: Endpoint, att: seq<seq<byte>>, ps: seq<Provider>, rt: Route): Sent
    requires |ps| >= |att|
  {
    if att == [] then Sent(e, [], [])
    else EncodeOne(EncodeAll(e, att[..|att| - 1], ps, rt), att[|att| - 1], ps[|att| - 1], rt)
  }

  lemma EncodePush(e: Endpoint, att: seq<seq<byte>>, i: nat, ps: seq<Provider>, rt: Route)
    requires |ps| >= |att| && i < |att|
    ensures EncodeAll(e, att[..i + 1], ps, rt) == EncodeOne(EncodeAll(e, att[..i], ps, rt), att[i], ps[i], rt)
  {
    assert att[..i + 1][..i] == att[..i];
  }

  /** How a payload should travel: left in memory exactly when the peer can read
      it, it reaches the RMA threshold and publishing it succeeds. */
  function Carrier(e: Endpoint, data: seq<byte>, p: Provider, rt: Route): Payload {
    if rt.usable && |data| >= rt.threshold && Publishes(e, data, p) then Remote(NewDesc(e, data, p))
    else Inline(Encode64(data))
  }

  lemma OneCarrier(s: Sent, data: seq<byte>, p: Provider, rt: Route)
    ensures EncodeOne(s, data, p, rt).payloads == s.payloads + [Carrier(s.e, data, p, rt)]
  {
  }

  /** Every payload of a message, in order, travels as it should, given the
      endpoint its predecessors left. */
  lemma {:induction false} CarrierChoice(e: Endpoint, att: seq<seq<byte>>, ps: seq<Provider>, rt: Route, i: nat)
    requires |ps| >= |att|
    ensures |EncodeAll(e, att, ps, rt).payloads| == |att|
    ensures i < |att| ==> EncodeAll(e, att, ps, rt).payloads[i]
                          == Carrier(EncodeAll(e, att[..i], ps, rt).e, att[i], ps[i], rt)
    decreases |att|
  {
    if att != [] {
      var n := |att| - 1;
      var s := EncodeAll(e, att[..n], ps, rt);
      CarrierChoice(e, att[..n], ps, rt, i);
      OneCarrier(s, att[n], ps[n], rt);
      assert EncodeAll(e, att, ps, rt).payloads == s.payloads + [Carrier(s.e, att[n], ps[n], rt)];
      if i < n { assert att[..n][..i] == att[..i] && att[..n][i] == att[i]; }
    }
  }

  // ---------------------------------------------------------------- healthy endpoints

  /** What holds of an endpoint whose handle counter has not wrapped. */
  predicate Healthy(e: Endpoint) {
    && 0 < e.nextHandle < U64 && e.nextKey < U64
    && KeysDistinct(e.regions)
    && (forall r :: r in e.regions ==> Whole(r) && 0 < r.desc.handle < e.nextHandle)
    && HandlesDistinct(e.regions)
  }

  predicate HandlesDistinct(rs: seq<Region>) {
    forall i, j :: 0 <= i < j < |rs| ==> rs[i].desc.handle != rs[j].desc.handle
  }

  lemma DropSubsequence(rs: seq<Region>, handle: nat)
    ensures KeysDistinct(rs) ==> KeysDistinct(Drop(rs, handle))
    ensures HandlesDistinct(rs) ==> HandlesDistinct(Drop(rs, handle))
  {
    var i, rs' := Find(rs, handle), Drop(rs, handle);
    assert i < |rs| ==> forall j :: 0 <= j < |rs'| ==> rs'[j] == rs[if j < i then j else j + 1];
  }

  lemma PushDistinct(rs: seq<Region>, r: Region)
    requires KeysDistinct(rs) && HandlesDistinct(rs)
    requires forall x :: x in rs ==> x.desc.key != r.desc.key && x.desc.handle != r.desc.handle
    ensures KeysDistinct(rs + [r]) && HandlesDistinct(rs + [r])
  {
    var out := rs + [r];
    forall i, j | 0 <= i < j < |out|
      ensures out[i].desc.key != out[j].desc.key && out[i].desc.handle != out[j].desc.handle {
      assert out[i] == rs[i] && rs[i] in rs;
    }
  }

  lemma RegisterHealthy(e: Endpoint, data: seq<byte>, p: Provider)
    requires Healthy(e) && e.nextHandle < U64 - 1 && Accepts(e, data, p)
    ensures Healthy(Register(e, data, p)) && Register(e, data, p).nextHandle == e.nextHandle + 1
    ensures Register(e, data, p).regions == e.regions + [Region(NewDesc(e, data, p), data)]
  {
    var r := Region(NewDesc(e, data, p), data);
    PushDistinct(e.regions, r);
    assert Whole(r);
    assert forall x :: x in e.regions + [r] ==> x in e.regions || x == r;
  }

  lemma PublishedHealthy(e: Endpoint, data: seq<byte>, p: Provider)
    requires Healthy(e) && e.nextHandle < U64 - 1
    ensures Healthy(Published(e, data, p))
    ensures e.nextHandle <= Published(e, data, p).nextHandle <= e.nextHandle + 1
    ensures Published(e, data, p).regions ==
            if Publishes(e, data, p) then e.regions + [Region(NewDesc(e, data, p), data)] else e.regions
    ensures Publishes(e, data, p) ==> Published(e, data, p).nextHandle == e.nextHandle + 1
  {
    if Accepts(e, data, p) {
      RegisterHealthy(e, data, p);
      if !p.text { DropLast(e.regions, Region(NewDesc(e, data, p), data)); }
    }
  }

  lemma DropLast(rs: seq<Region>, r: Region)
    requires forall x :: x in rs ==> x.desc.handle != r.desc.handle
    ensures Drop(rs + [r], r.desc.handle) == rs
  {
    var i := Find(rs + [r], r.desc.handle);
    assert (rs + [r])[|rs|] == r;
    assert forall j :: 0 <= j < |rs| ==> (rs + [r])[j] == rs[j];
  }

  // ---------------------------------------------------------------- what the message carries

  predicate PayloadOk(p: Payload, data: seq<byte>, rs: seq<Region>) {
    match p
    case Inline(s) => s == Encode64(data)
    case Remote(d) => Region(d, data) in rs
    case Bad => false
  }

  predicate Carries(ps: seq<Payload>, att: seq<seq<byte>>, rs: seq<Region>) {
    |ps| == |att| && forall i :: 0 <= i < |ps| ==> PayloadOk(ps[i], att[i], rs)
  }

  /** No two payloads name the same region. */
  predicate Apart(ps: seq<Payload>) {
    forall i, j :: 0 <= i < j < |ps| && ps[i].Remote? && ps[j].Remote? ==> ps[i].d.handle != ps[j].d.handle
  }

  predicate Names(ps: seq<Payload>, k: nat) {
    exists i :: 0 <= i < |ps| && ps[i].Remote? && ps[i].d.handle == k
  }

  ghost predicate SentOk(e: Endpoint, att: seq<seq<byte>>, s: Sent) {
    && Healthy(s.e) && e.nextHandle <= s.e.nextHandle <= e.nextHandle + |att|
    && Carries(s.payloads, att, s.e.regions)
    && Apart(s.payloads)
    && (forall k :: k in s.published <==> Names(s.payloads, k))
    && (forall k :: k in s.published ==> e.nextHandle <= k < s.e.nextHandle)
    && Added(e.regions, s.e.regions, s.published)
  }

  /** The regions after encoding: those before it, then one per published handle. */
  predicate Added(rs: seq<Region>, rs': seq<Region>, published: seq<nat>) {
    && rs <= rs' && |rs'| == |rs| + |published|
    && forall j :: 0 <= j < |published| ==> rs'[|rs| + j].desc.handle == published[j]
  }

  lemma AddedPush(rs: seq<Region>, rs': seq<Region>, published: seq<nat>, r: Region)
    requires Added(rs, rs', published)
    ensures Added(rs, rs' + [r], published + [r.desc.handle])
  {
  }

  lemma CarriesPush(ps: seq<Payload>, att: seq<seq<byte>>, rs: seq<Region>, p: Payload,
                    data: seq<byte>, rs': seq<Region>)
    requires Carries(ps, att, rs) && rs <= rs' && PayloadOk(p, data, rs')
    ensures Carries(ps + [p], att + [data], rs')
  {
    assert forall r :: r in rs ==> r in rs';
  }

  lemma NamesPush(ps: seq<Payload>, p: Payload, k: nat)
    ensures Names(ps + [p], k) <==> Names(ps, k) || (p.Remote? && p.d.handle == k)
  {
    if Names(ps, k) {
      var i :| 0 <= i < |ps| && ps[i].Remote? && ps[i].d.handle == k;
      assert (ps + [p])[i] == ps[i];
    }
    assert (ps + [p])[|ps|] == p;
  }

  lemma ApartPush(ps: seq<Payload>, p: Payload)
    requires Apart(ps) && (p.Remote? ==> !Names(ps, p.d.handle))
    ensures Apart(ps + [p])
  {
  }

  lemma EncodeOneOk(e: Endpoint, att: seq<seq<byte>>, s: Sent, data: seq<byte>, p: Provider, rt: Route)
    requires Healthy(e) && SentOk(e, att, s) && s.e.nextHandle < U64 - 1
    ensures SentOk(e, att + [data], EncodeOne(s, data, p, rt))
  {
    PublishedHealthy(s.e, data, p);
    var s' := EncodeOne(s, data, p, rt);
    var last := s'.payloads[|s.payloads|];
    assert s'.e.regions[..|s.e.regions|] == s.e.regions;
    CarriesPush(s.payloads, att, s.e.regions, last, data, s'.e.regions);
    ApartPush(s.payloads, last);
    if Tries(rt, data) && Publishes(s.e, data, p) {
      AddedPush(e.regions, s.e.regions, s.published, Region(NewDesc(s.e, data, p), data));
    }
    forall k ensures k in s'.published <==> Names(s'.payloads, k) { NamesPush(s.payloads, last, k); }
  }

  lemma {:induction false} EncodeAllOk(e: Endpoint, att: seq<seq<byte>>, ps: seq<Provider>, rt: Route)
    requires Healthy(e) && |ps| >= |att| && e.nextHandle + |att| < U64
    ensures SentOk(e, att, EncodeAll(e, att, ps, rt))
    decreases |att|
  {
    if att != [] {
      var front := att[..|att| - 1];
      EncodeAllOk(e, front, ps, rt);
      EncodeOneOk(e, front, EncodeAll(e, front, ps, rt), att[|att| - 1], ps[|att| - 1], rt);
      assert att == front + [att[|att| - 1]];
    }
  }

  // ---------------------------------------------------------------- releasing

  lemma ReleaseExact(e: Endpoint, k: nat, r: Region)
    requires HandlesDistinct(e.regions) && k != 0
    ensures r in Release(e, k).regions <==> r in e.regions && r.desc.handle != k
  {
    var i, rs := Find(e.regions, k), Drop(e.regions, k);
    if r.desc.handle != k {
      DropKeepsOthers(e.regions, k, r);
    } else if i < |e.regions| {
      assert forall j :: 0 <= j < |rs| ==> rs[j] == e.regions[if j < i then j else j + 1];
    }
  }

  function DiscardAll(e: Endpoint, hs: seq<nat>): Endpoint {
    if hs == [] then e else Release(DiscardAll(e, hs[..|hs| - 1]), hs[|hs| - 1])
  }

  /** Discarding the handles of a message removes exactly their regions, in any
      endpoint state and whatever else is registered. */
  lemma {:induction false} DiscardExact(e: Endpoint, hs: seq<nat>, r: Region)
    requires HandlesDistinct(e.regions) && 0 !in hs
    ensures HandlesDistinct(DiscardAll(e, hs).regions)
    ensures r in DiscardAll(e, hs).regions <==> r in e.regions && r.desc.handle !in hs
    decreases |hs|
  {
    if hs != [] {
      var front, last := hs[..|hs| - 1], hs[|hs| - 1];
      assert hs == front + [last];
      DiscardExact(e, front, r);
      var e1 := DiscardAll(e, front);
      DropSubsequence(e1.regions, last);
      ReleaseExact(e1, last, r);
    }
  }

  // ---------------------------------------------------------------- decoding

  /** The payloads read so far, and the sender's endpoint after the
      acknowledgements that arrived. */
  datatype Loaded = Loaded(e: Endpoint, data: Option<seq<seq<byte>>>)

  /** defw_rma_fetch, or base64. A lost acknowledgement does not fail the fetch. */
  function DecodeOne(l: Loaded, p: Payload, ack: bool, reachable: bool): Loaded {
    if l.data.None? then l
    else
      match p
      case Bad => l.(data := None)
      case Inline(s) =>
        (match Decode64(s)
         case Some(b) => l.(data := Some(l.data.value + [b]))
         case None => l.(data := None))
      case Remote(d) =>
        if !reachable || d.len == 0 || !DescOk(d) then l.(data := None)
        else
          match Read(l.e.regions, d)
          case None => l.(data := None)
          case Some(b) =>
            Loaded(if ack then Release(l.e, AckHandle(AckBody(d.handle))) else l.e, Some(l.data.value + [b]))
  }

  function DecodeAll(e: Endpoint, ps: seq<Payload>, acks: nat -> bool, reachable: bool): Loaded {
    if ps == [] then Loaded(e, Some([]))
    else DecodeOne(DecodeAll(e, ps[..|ps| - 1], acks, reachable), ps[|ps| - 1], acks(|ps| - 1), reachable)
  }

  predicate Acked(ps: seq<Payload>, acks: nat -> bool, k: nat) {
    exists i :: 0 <= i < |ps| && ps[i].Remote? && ps[i].d.handle == k && acks(i)
  }

  lemma AckedPush(ps: seq<Payload>, p: Payload, acks: nat -> bool, k: nat)
    ensures Acked(ps + [p], acks, k) <==> Acked(ps, acks, k) || (p.Remote? && p.d.handle == k && acks(|ps|))
  {
    if Acked(ps, acks, k) {
      var i :| 0 <= i < |ps| && ps[i].Remote? && ps[i].d.handle == k && acks(i);
      assert (ps + [p])[i] == ps[i];
    }
    assert (ps + [p])[|ps|] == p;
  }

  predicate Readable(e: Endpoint) {
    && KeysDistinct(e.regions) && HandlesDistinct(e.regions)
    && (forall r :: r in e.regions ==> Whole(r) && r.desc.handle != 0)
  }

  lemma ReleaseReadable(e: Endpoint, k: nat)
    requires Readable(e) && k != 0
    ensures Readable(Release(e, k))
  {
    DropSubsequence(e.regions, k);
    forall r | r in Release(e, k).regions ensures r in e.regions { ReleaseExact(e, k, r); }
  }

  lemma DecodeOneExact(l: Loaded, p: Payload, data: seq<byte>, ack: bool)
    requires Readable(l.e) && l.data.Some? && PayloadOk(p, data, l.e.regions)
    ensures DecodeOne(l, p, ack, true) ==
            Loaded(if p.Remote? && ack then Release(l.e, p.d.handle) else l.e, Some(l.data.value + [data]))
  {
    match p
    case Inline(s) => Base64RoundTrip(data);
    case Remote(d) =>
      var r := Region(d, data);
      assert Whole(r);
      ReadExact(l.e.regions, r);
      AckRoundTrip(d.handle);
  }

  /** What the decoder leaves behind: the sender's regions less those whose
      acknowledgement arrived. */
  ghost predicate DecodedOk(e: Endpoint, ps: seq<Payload>, att: seq<seq<byte>>, acks: nat -> bool, l: Loaded) {
    && l.data == Some(att) && Readable(l.e)
    && (forall r :: r in l.e.regions <==> r in e.regions && !Acked(ps, acks, r.desc.handle))
  }

  lemma DecodeStep(e: Endpoint, ps: seq<Payload>, p: Payload, att: seq<seq<byte>>, data: seq<byte>,
                   acks: nat -> bool, l: Loaded)
    requires DecodedOk(e, ps, att, acks, l) && PayloadOk(p, data, e.regions)
    requires p.Remote? ==> !Names(ps, p.d.handle)
    ensures DecodedOk(e, ps + [p], att + [data], acks, DecodeOne(l, p, acks(|ps|), true))
  {
    assert PayloadOk(p, data, l.e.regions);
    DecodeOneExact(l, p, data, acks(|ps|));
    forall r: Region ensures Acked(ps + [p], acks, r.desc.handle) <==>
      Acked(ps, acks, r.desc.handle) || (p.Remote? && p.d.handle == r.desc.handle && acks(|ps|))
    {
      AckedPush(ps, p, acks, r.desc.handle);
    }
    if p.Remote? && acks(|ps|) {
      assert Region(p.d, data) in l.e.regions;
      ReleaseReadable(l.e, p.d.handle);
      forall r ensures r in Release(l.e, p.d.handle).regions <==> r in l.e.regions && r.desc.handle != p.d.handle {
        ReleaseExact(l.e, p.d.handle, r);
      }
    }
  }

  lemma CarriesFront(ps: seq<Payload>, att: seq<seq<byte>>, rs: seq<Region>, n: nat)
    requires Carries(ps, att, rs) && Apart(ps) && n < |ps|
    ensures Carries(ps[..n], att[..n], rs) && Apart(ps[..n]) && PayloadOk(ps[n], att[n], rs)
    ensures ps[n].Remote? ==> !Names(ps[..n], ps[n].d.handle)
  {
  }

  lemma DecodeNone(e: Endpoint, acks: nat -> bool)
    requires Readable(e)
    ensures DecodedOk(e, [], [], acks, DecodeAll(e, [], acks, true))
  {
  }

  /** Every payload list comes back as the data it carries, for any mix of
      inline and remote payloads and any loss of acknowledgements. */
  lemma {:induction false} DecodeExact(e: Endpoint, ps: seq<Payload>, att: seq<seq<byte>>, acks: nat -> bool)
    requires Readable(e) && Carries(ps, att, e.regions) && Apart(ps)
    ensures DecodedOk(e, ps, att, acks, DecodeAll(e, ps, acks, true))
    decreases |ps|
  {
    if |ps| == 0 {
      assert ps == [] && att == [];
      DecodeNone(e, acks);
    } else {
      var n := |ps| - 1;
      var front, last, rest, data := ps[..n], ps[n], att[..n], att[n];
      CarriesFront(ps, att, e.regions, n);
      DecodeExact(e, front, rest, acks);
      DecodeLast(e, front, last, rest, data, acks);
      Rejoin(ps, att, n);
    }
  }

  lemma Rejoin(ps: seq<Payload>, att: seq<seq<byte>>, n: nat)
    requires n + 1 == |ps| == |att|
    ensures ps[..n] + [ps[n]] == ps && att[..n] + [att[n]] == att
  {
  }

  lemma DecodeLast(e: Endpoint, ps: seq<Payload>, p: Payload, att: seq<seq<byte>>, data: seq<byte>, acks: nat -> bool)
    requires DecodedOk(e, ps, att, acks, DecodeAll(e, ps, acks, true)) && PayloadOk(p, data, e.regions)
    requires p.Remote? ==> !Names(ps, p.d.handle)
    ensures DecodedOk(e, ps + [p], att + [data], acks, DecodeAll(e, ps + [p], acks, true))
  {
    assert (ps + [p])[..|ps|] == ps;
    DecodeStep(e, ps, p, att, data, acks, DecodeAll(e, ps, acks, true));
  }

  /** Why one payload cannot be read: it is neither text nor descriptor, not base64,
      or names memory that cannot be reached or holds nothing of it. */
  predicate Unreadable(e: Endpoint, p: Payload, reachable: bool) {
    match p
    case Bad => true
    case Inline(s) => Decode64(s).None?
    case Remote(d) => !reachable || d.len == 0 || !DescOk(d) || Read(e.regions, d).None?
  }

  lemma DecodeOneFails(l: Loaded, p: Payload, ack: bool, reachable: bool)
    ensures DecodeOne(l, p, ack, reachable).data.None? <==> l.data.None? || Unreadable(l.e, p, reachable)
  {
  }

  /** Reading stops at payload i: those before it were read, and it cannot be. */
  predicate StopsAt(e: Endpoint, ps: seq<Payload>, acks: nat -> bool, reachable: bool, i: nat) {
    && i < |ps| && DecodeAll(e, ps[..i], acks, reachable).data.Some?
    && Unreadable(DecodeAll(e, ps[..i], acks, reachable).e, ps[i], reachable)
  }

  /** Reading a payload list raises if and only if one of the payloads cannot be
      read when its turn comes. */
  lemma {:induction false} DecodeFailsIff(e: Endpoint, ps: seq<Payload>, acks: nat -> bool, reachable: bool)
    ensures DecodeAll(e, ps, acks, reachable).data.None? <==> exists i: nat :: StopsAt(e, ps, acks, reachable, i)
    decreases |ps|
  {
    if ps != [] {
      var n := |ps| - 1;
      var front := ps[..n];
      DecodeFailsIff(e, front, acks, reachable);
      DecodeOneFails(DecodeAll(e, front, acks, reachable), ps[n], acks(n), reachable);
      forall i: nat | i < n ensures StopsAt(e, ps, acks, reachable, i) <==> StopsAt(e, front, acks, reachable, i) {
        assert front[..i] == ps[..i];
      }
      if DecodeAll(e, front, acks, reachable).data.None? {
        var i: nat :| StopsAt(e, front, acks, reachable, i);
        assert StopsAt(e, ps, acks, reachable, i);
      } else if Unreadable(DecodeAll(e, front, acks, reachable).e, ps[n], reachable) {
        assert StopsAt(e, ps, acks, reachable, n);
      }
    }
  }

  // ---------------------------------------------------------------- whole messages

  function Put(d: Val, k: Val, v: Val): Val
    requires d.Dict?
  {
    var i := IndexOf(d.keys, k);
    if i < |d.keys| && i < |d.vals| then Dict(d.keys, d.vals[i := v]) else Dict(d.keys + [k], d.vals + [v])
  }

  function Without(d: Val, k: Val): Val
    requires d.Dict?
  {
    var i := IndexOf(d.keys, k);
    if i < |d.keys| && i < |d.vals| then Dict(d.keys[..i] + d.keys[i + 1..], d.vals[..i] + d.vals[i + 1..]) else d
  }

  lemma PutWithout(d: Val, k: Val, v: Val)
    requires d.Dict? && |d.keys| == |d.vals| && k !in d.keys
    ensures var w := Put(d, k, v); k in w.keys && Lookup(w, k) == Some(v) && Without(w, k) == d
  {
    var w := Put(d, k, v);
    assert w.keys[|d.keys|] == k;
    var i := IndexOf(w.keys, k);
    assert i == |d.keys|;
    assert w.keys[..i] + w.keys[i + 1..] == d.keys && w.vals[..i] + w.vals[i + 1..] == d.vals;
  }

  function PayloadVals(ps: seq<Payload>): seq<Val> {
    seq(|ps|, i requires 0 <= i < |ps| => PayloadVal(ps[i]))
  }

  function PayloadsOf(vs: seq<Val>): seq<Payload> {
    seq(|vs|, i requires 0 <= i < |vs| => PayloadOf(vs[i]))
  }

  /** A list or tuple does not take a new key; the text encoder raises. */
  datatype EncodeError = NotADict | NotDumped

  /** The message that goes out: the payload list is stored under a key of the
      transformed message, which only a dictionary accepts. */
  function Seal(m: Val, att: seq<seq<byte>>, ps: seq<Payload>): Result<Val, EncodeError> {
    if att == [] then Ok(m)
    else if m.Dict? then Ok(Put(m, DataKey, List(PayloadVals(ps))))
    else Err(NotADict)
  }

  /** The text encoder: the objects it refuses, such as a remote proxy, and whether
      it finds the stack and memory it needs for this message. */
  datatype Writer = Writer(refused: set<nat>, finishes: bool)

  /** yaml.dump; the text is taken as the value it stands for. */
  function Dump(w: Writer, m: Val): Result<Val, EncodeError> {
    if w.finishes && Dumps(m, w.refused) then Ok(m) else Err(NotDumped)
  }

  function Written(w: Writer, sealed: Result<Val, EncodeError>): Result<Val, EncodeError> {
    match sealed
    case Ok(m) => Dump(w, m)
    case Err(e) => Err(e)
  }

  /** What attach_encode returns once the payloads are known. */
  function WireOf(w: Writer, msg: Val, thr: int, ps: seq<Payload>): Result<Val, EncodeError> {
    Written(w, Seal(Mark(msg, 0, thr), Pulled(msg, thr), ps))
  }

  /** The part of a message that is written along with its payloads: a value
      under the reserved key is replaced by the payload list. */
  function Kept(msg: Val): Val {
    if msg.Dict? then Without(msg, DataKey) else msg
  }

  /** The message with its payloads put back, None for an exception. */
  function Restored(wire: Val, data: Option<seq<seq<byte>>>, size: string -> nat): Option<Val>
    requires wire.Dict?
  {
    if data.None? then None
    else if data.value == [] then Some(Without(wire, DataKey))
    else Reinject(Without(wire, DataKey), data.value, size)
  }

  /** attach_load: the message, or None for an exception, and the sender's endpoint. */
  function AttachLoad(e: Endpoint, wire: Val, acks: nat -> bool, reachable: bool, size: string -> nat)
    : (Endpoint, Option<Val>)
  {
    if wire.Dict? && DataKey in wire.keys then
      match Lookup(wire, DataKey)
      case Some(List(vs)) =>
        var l := DecodeAll(e, PayloadsOf(vs), acks, reachable);
        (l.e, Restored(wire, l.data, size))
      case _ => (e, None)
    else (e, Some(wire))
  }

  // ---------------------------------------------------------------- messages that cannot be encoded

  lemma PayloadValsDump(ps: seq<Payload>, refused: set<nat>)
    ensures Dumps(List(PayloadVals(ps)), refused)
  {
    forall i | 0 <= i < |ps| ensures Dumps(PayloadVals(ps)[i], refused) {
      if ps[i].Remote? {
        var d := DescVal(ps[i].d);
        assert forall j :: 0 <= j < 4 ==> d.keys[j].Text? && d.vals[j].Int?;
      }
    }
  }

  lemma ReplacedDumps(vs: seq<Val>, i: nat, x: Val, refused: set<nat>)
    requires i < |vs| && Dumps(x, refused)
    ensures AllDump(vs[i := x], refused) <==> AllDump(vs[..i] + vs[i + 1..], refused)
  {
    var with, less := vs[i := x], vs[..i] + vs[i + 1..];
    assert forall j :: 0 <= j < |less| ==> less[j] == with[if j < i then j else j + 1];
    assert forall j :: 0 <= j < |with| && j != i ==> with[j] == less[if j < i then j else j - 1];
  }

  lemma AppendedDumps(vs: seq<Val>, x: Val, refused: set<nat>)
    requires Dumps(x, refused)
    ensures AllDump(vs + [x], refused) <==> AllDump(vs, refused)
  {
    assert forall j :: 0 <= j < |vs| ==> (vs + [x])[j] == vs[j];
  }

  /** Storing an accepted value under a text key: what was there does not matter. */
  lemma PutDumps(d: Val, k: Val, x: Val, refused: set<nat>)
    requires d.Dict? && k.Text? && Dumps(x, refused)
    ensures Dumps(Put(d, k, x), refused) <==> Dumps(Without(d, k), refused)
  {
    var i := IndexOf(d.keys, k);
    var a, b := Put(d, k, x), Without(d, k);
    if i < |d.keys| && i < |d.vals| {
      assert d.keys[i := k] == d.keys;
      ReplacedDumps(d.keys, i, k, refused);
      ReplacedDumps(d.vals, i, x, refused);
    } else {
      AppendedDumps(d.keys, k, refused);
      AppendedDumps(d.vals, x, refused);
    }
    DictDumps(a.keys, a.vals, refused);
    DictDumps(b.keys, b.vals, refused);
  }

  lemma AlikeLess(xs: seq<Val>, ys: seq<Val>, i: nat, refused: set<nat>)
    requires i < |xs| && Alike(xs, ys, refused)
    ensures Alike(xs[..i] + xs[i + 1..], ys[..i] + ys[i + 1..], refused)
  {
    var a, b := xs[..i] + xs[i + 1..], ys[..i] + ys[i + 1..];
    forall j | 0 <= j < |a| ensures Dumps(a[j], refused) <==> Dumps(b[j], refused) {
      var o := if j < i then j else j + 1;
      assert a[j] == xs[o] && b[j] == ys[o];
    }
  }

  lemma AlikeDicts(keys: seq<Val>, xs: seq<Val>, ys: seq<Val>, refused: set<nat>)
    requires Alike(xs, ys, refused)
    ensures Dumps(Dict(keys, xs), refused) <==> Dumps(Dict(keys, ys), refused)
  {
    AlikeAll(xs, ys, refused);
    DictDumps(keys, xs, refused);
    DictDumps(keys, ys, refused);
  }

  lemma DictDumps(keys: seq<Val>, vals: seq<Val>, refused: set<nat>)
    ensures Dumps(Dict(keys, vals), refused) <==> AllDump(keys, refused) && AllDump(vals, refused)
  {
  }

  lemma WithoutAlike(keys: seq<Val>, xs: seq<Val>, ys: seq<Val>, k: Val, refused: set<nat>)
    requires Alike(xs, ys, refused)
    ensures Dumps(Without(Dict(keys, xs), k), refused) <==> Dumps(Without(Dict(keys, ys), k), refused)
  {
    var i := IndexOf(keys, k);
    if i < |keys| && i < |ys| {
      AlikeLess(xs, ys, i, refused);
      AlikeDicts(keys[..i] + keys[i + 1..], xs[..i] + xs[i + 1..], ys[..i] + ys[i + 1..], refused);
    } else {
      AlikeDicts(keys, xs, ys, refused);
    }
  }

  /** Marking and removing a key commute, as far as the encoder can tell. */
  lemma WithoutMarked(msg: Val, k: Val, thr: int, refused: set<nat>)
    requires msg.Dict?
    ensures Dumps(Without(Mark(msg, 0, thr), k), refused) <==> Dumps(Without(msg, k), refused)
  {
    MarkAllDumps(msg.vals, 0, thr, refused);
    WithoutAlike(msg.keys, MarkAll(msg.vals, 0, thr), msg.vals, k, refused);
  }

  lemma MarkerKept(v: Val, n: nat, refused: set<nat>)
    ensures Dumps(Without(Marker(v, n), DataKey), refused)
  {
    var m := Marker(v, n);
    MarkerDumps(v, n, refused);
    assert |DataKey.s| == 24 && |MarkerKey.s| == 19 && |"kind"| == 4 && |"shape"| == 5 && |"dtype"| == 5;
    assert DataKey !in m.keys;
  }

  /** The sealed message is accepted exactly when what is kept of it is. */
  lemma SealedDumps(msg: Val, thr: int, ps: seq<Payload>, refused: set<nat>)
    requires Mark(msg, 0, thr).Dict?
    ensures Dumps(Put(Mark(msg, 0, thr), DataKey, List(PayloadVals(ps))), refused) <==> Dumps(Kept(msg), refused)
  {
    PayloadValsDump(ps, refused);
    PutDumps(Mark(msg, 0, thr), DataKey, List(PayloadVals(ps)), refused);
    if Pulls(msg, thr) {
      MarkerKept(msg, 0, refused);
    } else {
      WithoutMarked(msg, DataKey, thr, refused);
    }
  }

  /** A list or tuple holds no attachment, the encoder finds room, and it refuses
      nothing that is kept. */
  predicate Encodable(w: Writer, msg: Val, thr: int) {
    && !((msg.List? || msg.Tuple?) && Pulled(msg, thr) != [])
    && w.finishes
    && Dumps(if Pulled(msg, thr) == [] then msg else Kept(msg), w.refused)
  }

  /** attach_encode raises exactly for the messages that are not encodable,
      however their payloads travel. */
  lemma EncodeFailsIff(w: Writer, msg: Val, thr: int, ps: seq<Payload>)
    ensures WireOf(w, msg, thr, ps).Ok? <==> Encodable(w, msg, thr)
  {
    if Pulled(msg, thr) == [] {
      NothingPulled(msg, 0, thr);
    } else if Mark(msg, 0, thr).Dict? {
      SealedDumps(msg, thr, ps, w.refused);
    }
  }

  lemma MarkedDict(msg: Val, thr: int, size: string -> nat)
    requires Plain(msg, size) && (msg.Dict? ==> DataKey !in msg.keys) && Mark(msg, 0, thr).Dict?
    ensures var m := Mark(msg, 0, thr); |m.keys| == |m.vals| && DataKey !in m.keys
  {
    var m := Mark(msg, 0, thr);
    if Pulls(msg, thr) {
      assert |DataKey.s| == 24 && |MarkerKey.s| == 19 && |"kind"| == 4 && |"shape"| == 5 && |"dtype"| == 5;
    } else {
      MarkLength(msg.vals, 0, thr);
    }
  }

  lemma PayloadsRoundTrip(ps: seq<Payload>)
    requires forall p :: p in ps && p.Remote? ==> DescOk(p.d)
    ensures PayloadsOf(PayloadVals(ps)) == ps
  {
    forall i | 0 <= i < |ps| ensures PayloadsOf(PayloadVals(ps))[i] == ps[i] {
      PayloadRoundTrip(ps[i]);
    }
  }

  lemma RegionsNameable(ps: seq<Payload>, att: seq<seq<byte>>, e: Endpoint)
    requires Readable(e) && Carries(ps, att, e.regions)
    ensures forall p :: p in ps && p.Remote? ==> DescOk(p.d)
  {
    forall i | 0 <= i < |ps| && ps[i].Remote? ensures DescOk(ps[i].d) {
      assert PayloadOk(ps[i], att[i], e.regions);
      assert Whole(Region(ps[i].d, att[i]));
    }
  }

  lemma LoadsWire(e: Endpoint, m: Val, ps: seq<Payload>, acks: nat -> bool, size: string -> nat)
    requires m.Dict? && |m.keys| == |m.vals| && DataKey !in m.keys
    requires forall p :: p in ps && p.Remote? ==> DescOk(p.d)
    ensures var l := DecodeAll(e, ps, acks, true);
            AttachLoad(e, Put(m, DataKey, List(PayloadVals(ps))), acks, true, size) ==
            (l.e, if l.data.None? then None
                  else if l.data.value == [] then Some(m) else Reinject(m, l.data.value, size))
  {
    PutWithout(m, DataKey, List(PayloadVals(ps)));
    PayloadsRoundTrip(ps);
  }

  /** attach_load undoes attach_encode: for every message without the reserved
      keys, every pair of thresholds, every mix of carriers and every loss of
      acknowledgements, provided the regions it names are still registered when
      it is read. Afterwards the acknowledged regions are gone, and no others. */
  lemma AttachRoundTrip(w: Writer, msg: Val, thr: int, size: string -> nat, ps: seq<Payload>, e: Endpoint,
                        acks: nat -> bool)
    requires Plain(msg, size) && (msg.Dict? ==> DataKey !in msg.keys)
    requires WireOf(w, msg, thr, ps).Ok?
    requires Readable(e) && Carries(ps, Pulled(msg, thr), e.regions) && Apart(ps)
    ensures var (e', got) := AttachLoad(e, WireOf(w, msg, thr, ps).value, acks, true, size);
            && got == Some(Norm(msg, thr))
            && (forall r :: r in e'.regions <==> r in e.regions && !Acked(ps, acks, r.desc.handle))
  {
    var att := Pulled(msg, thr);
    if att == [] {
      NothingPulled(msg, 0, thr);
    } else {
      MarkedDict(msg, thr, size);
      RegionsNameable(ps, att, e);
      LoadsWire(e, Mark(msg, 0, thr), ps, acks, size);
      DecodeExact(e, ps, att, acks);
      assert att[0..0 + |att|] == att;
      ReinjectMark(msg, 0, thr, att, size);
    }
  }

  // ---------------------------------------------------------------- runs of the sending endpoint

  /** The registry operations one encoding performs. */
  function OneOps(e: Endpoint, data: seq<byte>, p: Provider, rt: Route): seq<Op> {
    if !Tries(rt, data) then []
    else if Accepts(e, data, p) && !p.text then [Publish(data, p), Discard(e.nextHandle)]
    else [Publish(data, p)]
  }

  function EncodeOps(e: Endpoint, att: seq<seq<byte>>, ps: seq<Provider>, rt: Route): seq<Op>
    requires |ps| >= |att|
  {
    if att == [] then []
    else
      var front := att[..|att| - 1];
      EncodeOps(e, front, ps, rt) + OneOps(EncodeAll(e, front, ps, rt).e, att[|att| - 1], ps[|att| - 1], rt)
  }

  lemma OneOpsRun(h: History, s: Sent, data: seq<byte>, p: Provider, rt: Route)
    requires s.e == h.e
    ensures Steps(h, OneOps(s.e, data, p, rt)).e == EncodeOne(s, data, p, rt).e
  {
    if Tries(rt, data) {
      StepsOne(h, Publish(data, p));
      if Accepts(s.e, data, p) && !p.text {
        var h1 := Step(h, Publish(data, p));
        StepsAppend(h, [Publish(data, p)], [Discard(s.e.nextHandle)]);
        StepsOne(h1, Discard(s.e.nextHandle));
        assert [Publish(data, p)] + [Discard(s.e.nextHandle)] == OneOps(s.e, data, p, rt);
      }
    }
  }

  lemma {:induction false} EncodeOpsRun(h: History, att: seq<seq<byte>>, ps: seq<Provider>, rt: Route)
    requires |ps| >= |att|
    ensures Steps(h, EncodeOps(h.e, att, ps, rt)).e == EncodeAll(h.e, att, ps, rt).e
    decreases |att|
  {
    if att != [] {
      var front, data, p := att[..|att| - 1], att[|att| - 1], ps[|att| - 1];
      EncodeOpsRun(h, front, ps, rt);
      var s := EncodeAll(h.e, front, ps, rt);
      StepsAppend(h, EncodeOps(h.e, front, ps, rt), OneOps(s.e, data, p, rt));
      OneOpsRun(Steps(h, EncodeOps(h.e, front, ps, rt)), s, data, p, rt);
    }
  }

  lemma {:induction false} CountAt(rs: seq<Region>, i: nat)
    requires i < |rs|
    ensures Count(rs, rs[i].desc.handle) >= 1
    decreases |rs|
  {
    if i < |rs| - 1 { CountAt(rs[..|rs| - 1], i); }
  }

  lemma CountTwice(rs: seq<Region>, i: nat, j: nat)
    requires i < j < |rs| && rs[i].desc.handle == rs[j].desc.handle
    ensures Count(rs, rs[i].desc.handle) >= 2
  {
    CountAppend(rs[..j], rs[j..], rs[i].desc.handle);
    assert rs == rs[..j] + rs[j..];
    CountAt(rs[..j], i);
    CountAt(rs[j..], 0);
  }

  lemma RunDistinct(ops: seq<Op>)
    requires |Steps(Begin, ops).issued| < U64
    ensures HandlesDistinct(Steps(Begin, ops).e.regions)
  {
    var rs := Steps(Begin, ops).e.regions;
    forall i, j | 0 <= i < j < |rs| ensures rs[i].desc.handle != rs[j].desc.handle {
      if rs[i].desc.handle == rs[j].desc.handle {
        CountTwice(rs, i, j);
        AtMostOnce(ops, rs[i].desc.handle);
      }
    }
  }

  lemma IssuedNumber(issued: seq<Region>, r: Region)
    requires Numbered(issued) && |issued| < U64 && r in issued
    ensures 0 < r.desc.handle <= |issued|
  {
    NumberedPlain(issued);
  }

  lemma SoundReadable(h: History)
    requires Sound(h) && |h.issued| < U64 && HandlesDistinct(h.e.regions)
    ensures Readable(h.e)
  {
    forall r | r in h.e.regions ensures Whole(r) && r.desc.handle != 0 { IssuedNumber(h.issued, r); }
  }

  /** Every state of a run is readable and healthy until the handle counter wraps. */
  lemma RunReadable(ops: seq<Op>)
    requires |Steps(Begin, ops).issued| < U64
    ensures Readable(Steps(Begin, ops).e)
  {
    StepsSound(Begin, ops);
    RunDistinct(ops);
    SoundReadable(Steps(Begin, ops));
  }

  lemma RunHealthy(ops: seq<Op>)
    requires |Steps(Begin, ops).issued| < U64 - 1
    ensures Healthy(Steps(Begin, ops).e) && Steps(Begin, ops).e.nextHandle == |Steps(Begin, ops).issued| + 1
  {
    var h := Steps(Begin, ops);
    RunReadable(ops);
    StepsSound(Begin, ops);
    forall r | r in h.e.regions ensures 0 < r.desc.handle < h.e.nextHandle { IssuedNumber(h.issued, r); }
  }

  lemma StillCarries(h: History, after: seq<Op>, ps: seq<Payload>, att: seq<seq<byte>>)
    requires Carries(ps, att, h.e.regions)
    requires forall o, k :: o in after && Names(ps, k) ==> Spares(o, k)
    ensures Carries(ps, att, Steps(h, after).e.regions)
  {
    forall i | 0 <= i < |ps| ensures PayloadOk(ps[i], att[i], Steps(h, after).e.regions) {
      if ps[i].Remote? {
        assert Names(ps, ps[i].d.handle);
        LiveUntilReleased(h, after, Region(ps[i].d, att[i]));
      }
    }
  }

  /** Over every run of the sender's endpoint: whatever happened before the
      message was encoded, and whatever happens to other regions before it is
      read, the receiver restores every message that can be encoded. */
  lemma MessageArrives(before: seq<Op>, w: Writer, msg: Val, thr: int, size: string -> nat,
                       ps: seq<Provider>, rt: Route,
                       after: seq<Op>, acks: nat -> bool)
    requires Plain(msg, size) && (msg.Dict? ==> DataKey !in msg.keys)
    requires |ps| >= |Pulled(msg, thr)|
    requires |Steps(Begin, before).issued| + 1 + |Pulled(msg, thr)| < U64
    requires var e := Steps(Begin, before).e;
             var sent := EncodeAll(e, Pulled(msg, thr), ps, rt);
             && |Steps(Begin, before + EncodeOps(e, Pulled(msg, thr), ps, rt) + after).issued| < U64
             && (forall o, k :: o in after && k in sent.published ==> Spares(o, k))
    ensures var e := Steps(Begin, before).e;
            var sent := EncodeAll(e, Pulled(msg, thr), ps, rt);
            var now := Steps(Begin, before + EncodeOps(e, Pulled(msg, thr), ps, rt) + after).e;
            var wire := WireOf(w, msg, thr, sent.payloads);
            && (wire.Ok? <==> Encodable(w, msg, thr))
            && (wire.Ok? ==> AttachLoad(now, wire.value, acks, true, size).1 == Some(Norm(msg, thr)))
  {
    var att := Pulled(msg, thr);
    var h := Steps(Begin, before);
    var sent := EncodeAll(h.e, att, ps, rt);
    var ops := before + EncodeOps(h.e, att, ps, rt);
    RunHealthy(before);
    EncodeAllOk(h.e, att, ps, rt);
    EncodeOpsRun(h, att, ps, rt);
    StepsAppend(Begin, before, EncodeOps(h.e, att, ps, rt));
    StepsAppend(Begin, ops, after);
    StillCarries(Steps(Begin, ops), after, sent.payloads, att);
    RunReadable(ops + after);
    EncodeFailsIff(w, msg, thr, sent.payloads);
    if Encodable(w, msg, thr) {
      AttachRoundTrip(w, msg, thr, size, sent.payloads, Steps(Begin, ops + after).e, acks);
    }
  }

  // ---------------------------------------------------------------- messages that were not sent

  lemma ReleaseMiddle(e: Endpoint, a: seq<Region>, r: Region, b: seq<Region>)
    requires e.regions == a + [r] + b && r.desc.handle != 0
    requires forall x :: x in a ==> x.desc.handle != r.desc.handle
    ensures Release(e, r.desc.handle).regions == a + b
  {
    assert e.regions[|a|] == r && forall j :: 0 <= j < |a| ==> e.regions[j] == a[j] && a[j] in a;
    assert Find(e.regions, r.desc.handle) == |a|;
    assert e.regions[..|a|] == a && e.regions[|a| + 1..] == b;
  }

  /** The last of the added regions joins what follows them. */
  lemma Regroup(rs: seq<Region>, news: seq<Region>, tail: seq<Region>)
    requires news != []
    ensures var n := |news| - 1;
            && rs + news + tail == rs + news[..n] + ([news[n]] + tail)
            && rs + ([news[n]] + tail) == rs + [news[n]] + tail
  {
  }

  /** The handles are those of the added regions, in order, and of no region
      before them. */
  predicate OwnHandles(rs: seq<Region>, news: seq<Region>, hs: seq<nat>) {
    && |hs| == |news|
    && (forall j :: 0 <= j < |hs| ==> news[j].desc.handle == hs[j] && hs[j] != 0)
    && (forall x, j :: x in rs && 0 <= j < |hs| ==> x.desc.handle != hs[j])
  }

  /** Releasing them leaves what was before and after. */
  lemma {:induction false} DiscardAdded(e: Endpoint, rs: seq<Region>, news: seq<Region>,
                                        tail: seq<Region>, hs: seq<nat>)
    requires e.regions == rs + news + tail && OwnHandles(rs, news, hs)
    ensures DiscardAll(e, hs).regions == rs + tail
    decreases |hs|
  {
    if hs == [] {
      assert rs + news == rs;
    } else {
      var n := |hs| - 1;
      Regroup(rs, news, tail);
      DiscardAdded(e, rs, news[..n], [news[n]] + tail, hs[..n]);
      ReleaseMiddle(DiscardAll(e, hs[..n]), rs, news[n], tail);
    }
  }

  lemma AddedOwn(rs: seq<Region>, all: seq<Region>, hs: seq<nat>, next: nat)
    requires Added(rs, all, hs) && next > 0
    requires (forall k :: k in hs ==> next <= k) && (forall x :: x in rs ==> x.desc.handle < next)
    ensures OwnHandles(rs, all[|rs|..], hs) && all == rs + all[|rs|..] + []
  {
    assert forall j :: 0 <= j < |hs| ==> hs[j] in hs && all[|rs|..][j] == all[|rs| + j];
  }

  /** Discarding what a message published restores the regions exactly. */
  lemma DiscardRestores(e: Endpoint, att: seq<seq<byte>>, sent: Sent)
    requires Healthy(e) && SentOk(e, att, sent)
    ensures DiscardAll(sent.e, sent.published).regions == e.regions
  {
    AddedOwn(e.regions, sent.e.regions, sent.published, e.nextHandle);
    DiscardAdded(sent.e, e.regions, sent.e.regions[|e.regions|..], [], sent.published);
    assert e.regions + [] == e.regions;
  }

  /** What came of handing the text to the transport: sent, an error code, or an
      exception of the call itself. */
  datatype Delivery = Delivered | Failed | Raised

  /** The endpoint after send_rsp or send_req: only an error code leads to the
      discard. */
  function AfterSend(e: Endpoint, w: Writer, msg: Val, thr: int, ps: seq<Provider>, rt: Route, d: Delivery): Endpoint
    requires |ps| >= |Pulled(msg, thr)|
  {
    var sent := EncodeAll(e, Pulled(msg, thr), ps, rt);
    if WireOf(w, msg, thr, sent.payloads).Ok? && d.Failed? then DiscardAll(sent.e, sent.published) else sent.e
  }

  /** A message that was not sent - it could not be encoded, or the transport
      failed - leaves the registered regions as they were if and only if nothing
      of it was published, or it was encoded and the transport returned an error
      code. What is published of a list or tuple, or beside an object the encoder
      refuses, stays. */
  lemma UnsentLeavesNothingIff(before: seq<Op>, w: Writer, msg: Val, thr: int, ps: seq<Provider>,
                               rt: Route, d: Delivery)
    requires |ps| >= |Pulled(msg, thr)| && |Steps(Begin, before).issued| + 1 + |Pulled(msg, thr)| < U64
    requires !Encodable(w, msg, thr) || !d.Delivered?
    ensures var e := Steps(Begin, before).e;
            var sent := EncodeAll(e, Pulled(msg, thr), ps, rt);
            AfterSend(e, w, msg, thr, ps, rt, d).regions == e.regions <==>
            !((msg.List? || msg.Tuple? || !w.finishes || !Dumps(Kept(msg), w.refused) || d.Raised?)
              && sent.published != [])
  {
    var e, att := Steps(Begin, before).e, Pulled(msg, thr);
    var sent := EncodeAll(e, att, ps, rt);
    RunHealthy(before);
    EncodeAllOk(e, att, ps, rt);
    EncodeFailsIff(w, msg, thr, sent.payloads);
    DiscardRestores(e, att, sent);
    assert sent.published == [] ==> sent.e.regions == e.regions[..|e.regions|];
  }

  /** In every other case the endpoint is left as encoding the message left it: what
      was published stays for the peer to read, or - as above - for nobody. */
  lemma SendKeepsPublished(before: seq<Op>, w: Writer, msg: Val, thr: int, ps: seq<Provider>, rt: Route, d: Delivery)
    requires |ps| >= |Pulled(msg, thr)| && !(Encodable(w, msg, thr) && d == Failed)
    ensures var e := Steps(Begin, before).e;
            AfterSend(e, w, msg, thr, ps, rt, d) == Steps(Begin, before + EncodeOps(e, Pulled(msg, thr), ps, rt)).e
  {
    var h, att := Steps(Begin, before), Pulled(msg, thr);
    EncodeFailsIff(w, msg, thr, EncodeAll(h.e, att, ps, rt).payloads);
    EncodeOpsRun(h, att, ps, rt);
    StepsAppend(Begin, before, EncodeOps(h.e, att, ps, rt));
  }

  /** Publishing one payload from a new endpoint, to a peer that can read it. */
  lemma FirstPublish(data: seq<byte>)
    requires 0 < |data| < U64
    ensures EncodeAll(Fresh, [data], [Provider(true, true, None, 0, true)], Route(true, 0)) ==
            Sent(Endpoint(true, true, [Region(Desc(1, 1, 0, |data|), data)], 2, 2),
                 [Remote(Desc(1, 1, 0, |data|))], [1])
  {
    var p, rt := Provider(true, true, None, 0, true), Route(true, 0);
    assert [data][..0] == [] && [data][..1] == [data];
    EncodePush(Fresh, [data], 0, [p], rt);
    assert EncodeAll(Fresh, [data], [p], rt) == EncodeOne(Sent(Fresh, [], []), data, p, rt);
  }

  /** An RPC as callers build it, with one large array and one object among its
      arguments. */
  function Request(data: seq<byte>, id: nat): Val {
    Dict([Text("rpc")], [Dict([Text("args")], [Tuple([Array([|data|], "uint8", data), Other(id)])])])
  }

  lemma ArgumentsPull(data: seq<byte>, id: nat)
    ensures Pulled(Tuple([Array([|data|], "uint8", data), Other(id)]), 0) == [data]
  {
    var a, o := Array([|data|], "uint8", data), Other(id);
    MarkPush([a], o, 0, 0);
    OnePulled(a);
    assert [a] + [o] == [a, o];
  }

  lemma RequestPulls(data: seq<byte>, id: nat)
    ensures Pulled(Request(data, id), 0) == [data]
  {
    var args := Tuple([Array([|data|], "uint8", data), Other(id)]);
    ArgumentsPull(data, id);
    OnePulled(args);
    OnePulled(Dict([Text("args")], [args]));
  }

  lemma OnePulled(v: Val)
    ensures PulledAll([v], 0) == Pulled(v, 0)
  {
    MarkPush([], v, 0, 0);
    assert [] + [v] == [v];
  }

  /** Such a request leaks when the object is one the encoder refuses: it is
      raised to the caller, and the array's region stays. */
  lemma RefusedArgumentLeaks(w: Writer, data: seq<byte>, id: nat, d: Delivery)
    requires 0 < |data| < U64 && id in w.refused
    ensures var msg, ps, rt := Request(data, id), [Provider(true, true, None, 0, true)], Route(true, 0);
            && |Pulled(msg, 0)| == 1 && !Encodable(w, msg, 0)
            && AfterSend(Fresh, w, msg, 0, ps, rt, d).regions == [Region(Desc(1, 1, 0, |data|), data)]
  {
    var msg := Request(data, id);
    RequestPulls(data, id);
    FirstPublish(data);
    var args := msg.vals[0].vals[0];
    assert args.vals[1] == Other(id) && !Dumps(args, w.refused);
    assert !Dumps(msg.vals[0], w.refused);
    assert |DataKey.s| == 24 && |"rpc"| == 3 && Kept(msg) == msg;
    assert !Dumps(msg, w.refused);
    EncodeFailsIff(w, msg, 0, [Remote(Desc(1, 1, 0, |data|))]);
  }

  /** So does every list holding one byte string. */
  lemma ListMessageLeaks(w: Writer, data: seq<byte>, d: Delivery)
    requires 0 < |data| < U64
    ensures var msg, ps, rt := List([Bytes(data)]), [Provider(true, true, None, 0, true)], Route(true, 0);
            && |Pulled(msg, 0)| == 1 && !Encodable(w, msg, 0)
            && AfterSend(Fresh, w, msg, 0, ps, rt, d).regions == [Region(Desc(1, 1, 0, |data|), data)]
  {
    OnePulled(Bytes(data));
    FirstPublish(data);
    EncodeFailsIff(w, List([Bytes(data)]), 0, [Remote(Desc(1, 1, 0, |data|))]);
  }

  // ---------------------------------------------------------------- the operations

  /** _encode_payloads: one registration attempt per payload that qualifies; the
      descriptor comes back as text. */
  method EncodePayloads(reg: MrRegistry, att: seq<seq<byte>>, ps: seq<Provider>, rt: Route)
    returns (payloads: seq<Payload>, published: seq<nat>)
    requires |ps| >= |att| && reg.nextHandle < U64 && reg.nextKey < U64
    modifies reg
    ensures Sent(reg.State(), payloads, published) == EncodeAll(old(reg.State()), att, ps, rt)
  {
    payloads, published := [], [];
    ghost var e := reg.State();
    for i := 0 to |att|
      invariant reg.nextHandle < U64 && reg.nextKey < U64
      invariant Sent(reg.State(), payloads, published) == EncodeAll(e, att[..i], ps, rt)
    {
      EncodePush(e, att, i, ps, rt);
      var payload := Inline(Encode64(att[i]));
      if rt.usable && |att[i]| >= rt.threshold {
        ghost var d := NewDesc(reg.State(), att[i], ps[i]);
        DescRoundTrip(if |att[i]| < U64 then d else Desc(0, 0, 0, 0));
        var text := reg.PublishCopy(att[i], ps[i]);
        if text.Ok? {
          var desc := ParseDesc(text.value);
          published := published + [desc.value.handle];
          payload := Remote(desc.value);
        }
      }
      payloads := payloads + [payload];
    }
    assert att[..|att|] == att;
  }

  /** attach_discard */
  method DiscardPublished(reg: MrRegistry, published: seq<nat>)
    modifies reg
    ensures reg.State() == DiscardAll(old(reg.State()), published)
  {
    ghost var e := reg.State();
    for i := 0 to |published|
      invariant reg.State() == DiscardAll(e, published[..i])
    {
      var _ := reg.ReleaseHandle(published[i]);
      assert published[..i + 1][..i] == published[..i];
    }
    assert published[..|published|] == published;
  }

  /** attach_encode: the payloads are published before the transformed message
      is found to be unable to hold them, or unable to be written. */
  method AttachEncode(reg: MrRegistry, w: Writer, msg: Val, thr: int, ps: seq<Provider>, rt: Route)
    returns (wire: Result<Val, EncodeError>, published: seq<nat>)
    requires |ps| >= |Pulled(msg, thr)| && reg.nextHandle < U64 && reg.nextKey < U64
    modifies reg
    ensures var sent := EncodeAll(old(reg.State()), Pulled(msg, thr), ps, rt);
            reg.State() == sent.e && published == sent.published && wire == WireOf(w, msg, thr, sent.payloads)
  {
    var acc := new Accumulator();
    var m := Extract(msg, acc, thr);
    assert [] + Pulled(msg, thr) == Pulled(msg, thr);
    var att, payloads := acc.items, [];
    published := [];
    if att != [] {
      payloads, published := EncodePayloads(reg, att, ps, rt);
    }
    wire := WriteMessage(w, m, att, payloads);
  }

  /** Store the payload list in the message, then write it as text. */
  method WriteMessage(w: Writer, m: Val, att: seq<seq<byte>>, ps: seq<Payload>) returns (wire: Result<Val, EncodeError>)
    ensures wire == Written(w, Seal(m, att, ps))
  {
    var sealed := m;
    if att != [] {
      if !m.Dict? { return Err(NotADict); }
      sealed := Put(m, DataKey, List(PayloadVals(ps)));
    }
    return Dump(w, sealed);
  }

  /** send_rsp and send_req: an error code of the transport discards what was
      published; an exception, of the encoder or of the transport call, is raised
      before the discard is reached. */
  method Send(reg: MrRegistry, w: Writer, msg: Val, thr: int, ps: seq<Provider>, rt: Route, d: Delivery)
    returns (wire: Result<Val, EncodeError>)
    requires |ps| >= |Pulled(msg, thr)| && reg.nextHandle < U64 && reg.nextKey < U64
    modifies reg
    ensures wire == WireOf(w, msg, thr, EncodeAll(old(reg.State()), Pulled(msg, thr), ps, rt).payloads)
    ensures reg.State() == AfterSend(old(reg.State()), w, msg, thr, ps, rt, d)
  {
    var published;
    wire, published := AttachEncode(reg, w, msg, thr, ps, rt);
    if wire.Ok? && d.Failed? {
      DiscardPublished(reg, published);
    }
  }
}

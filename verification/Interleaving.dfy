/**
  Attachments while other threads use the same endpoint: between any two
  payloads of a message, being encoded or being read, others may publish,
  acknowledge and discard regions.
 */
module Interleaving {
  import opened Common
  import opened Wire
  import opened Rma
  import opened Attachments
  import opened Transfer

  // ---------------------------------------------------------------- encoding

  /** The endpoint's run so far, and the payloads and handles of one message. */
  datatype Outgoing = Outgoing(run: seq<Op>, payloads: seq<Payload>, published: seq<nat>)

  function EncodeNext(o: Outgoing, others: seq<Op>, data: seq<byte>, p: Provider, rt: Route): Outgoing {
    var run := o.run + others;
    var e := Steps(Begin, run).e;
    var s := EncodeOne(Sent(e, o.payloads, o.published), data, p, rt);
    Outgoing(run + OneOps(e, data, p, rt), s.payloads, s.published)
  }

  /** Encoding after a run, with others(i) happening before payload i. */
  function EncodeMixed(before: seq<Op>, att: seq<seq<byte>>, ps: seq<Provider>, rt: Route,
                       others: nat -> seq<Op>): Outgoing
    requires |ps| >= |att|
  {
    if att == [] then Outgoing(before, [], [])
    else
      var n := |att| - 1;
      EncodeNext(EncodeMixed(before, att[..n], ps, rt, others), others(n), att[n], ps[n], rt)
  }

  /** No operation releases a region these payloads name. */
  ghost predicate Spared(ops: seq<Op>, ps: seq<Payload>) {
    forall o, k: nat :: o in ops && Names(ps, k) ==> Spares(o, k)
  }

  /** What the others do before each payload spares those already encoded. */
  ghost predicate EncodeSpared(before: seq<Op>, att: seq<seq<byte>>, ps: seq<Provider>, rt: Route,
                               others: nat -> seq<Op>)
    requires |ps| >= |att|
  {
    att == [] ||
    var n := |att| - 1;
    && EncodeSpared(before, att[..n], ps, rt, others)
    && Spared(others(n), EncodeMixed(before, att[..n], ps, rt, others).payloads)
  }

  lemma {:induction false} IssuedGrows(h: History, ops: seq<Op>)
    ensures |h.issued| <= |Steps(h, ops).issued|
    decreases |ops|
  {
    if ops != [] { IssuedGrows(Step(h, ops[0]), ops[1..]); }
  }

  ghost predicate OutgoingOk(o: Outgoing, att: seq<seq<byte>>) {
    var h := Steps(Begin, o.run);
    && Carries(o.payloads, att, h.e.regions)
    && Apart(o.payloads)
    && (forall k: nat :: Names(o.payloads, k) ==> k <= |h.issued|)
  }

  /** One payload encoded at an endpoint that still holds the earlier ones. */
  lemma EncodeHere(h: History, o: Outgoing, att: seq<seq<byte>>, data: seq<byte>, p: Provider, rt: Route)
    requires Healthy(h.e) && h.e.nextHandle == |h.issued| + 1 < U64 - 1
    requires Carries(o.payloads, att, h.e.regions) && Apart(o.payloads)
    requires forall k: nat :: Names(o.payloads, k) ==> k <= |h.issued|
    ensures var s := EncodeOne(Sent(h.e, o.payloads, o.published), data, p, rt);
            && Carries(s.payloads, att + [data], s.e.regions)
            && Apart(s.payloads)
            && (forall k: nat :: Names(s.payloads, k) ==> k <= |Steps(h, OneOps(h.e, data, p, rt)).issued|)
  {
    var s := EncodeOne(Sent(h.e, o.payloads, o.published), data, p, rt);
    var last := s.payloads[|o.payloads|];
    PublishedHealthy(h.e, data, p);
    assert s.e.regions[..|h.e.regions|] == h.e.regions;
    CarriesPush(o.payloads, att, h.e.regions, last, data, s.e.regions);
    ApartPush(o.payloads, last);
    IssuedGrows(h, OneOps(h.e, data, p, rt));
    StepsOne(h, Publish(data, p));
    forall k: nat | Names(s.payloads, k) ensures k <= |Steps(h, OneOps(h.e, data, p, rt)).issued| {
      NamesPush(o.payloads, last, k);
    }
  }

  lemma EncodeNextOk(o: Outgoing, others: seq<Op>, att: seq<seq<byte>>, data: seq<byte>, p: Provider, rt: Route)
    requires OutgoingOk(o, att) && Spared(others, o.payloads)
    requires |Steps(Begin, EncodeNext(o, others, data, p, rt).run).issued| + 2 < U64
    ensures OutgoingOk(EncodeNext(o, others, data, p, rt), att + [data])
  {
    var h, run := Steps(Begin, o.run), o.run + others;
    var h1 := Steps(Begin, run);
    var ops := OneOps(h1.e, data, p, rt);
    StepsAppend(Begin, o.run, others);
    StepsAppend(Begin, run, ops);
    IssuedGrows(h, others);
    IssuedGrows(h1, ops);
    StillCarries(h, others, o.payloads, att);
    RunHealthy(run);
    EncodeHere(h1, o, att, data, p, rt);
    OneOpsRun(h1, Sent(h1.e, o.payloads, o.published), data, p, rt);
  }

  /** However the encoding is interleaved, each payload carries its attachment
      and no two name one region. */
  lemma {:induction false} EncodeMixedOk(before: seq<Op>, att: seq<seq<byte>>, ps: seq<Provider>,
                                         rt: Route, others: nat -> seq<Op>)
    requires |ps| >= |att| && EncodeSpared(before, att, ps, rt, others)
    requires |Steps(Begin, EncodeMixed(before, att, ps, rt, others).run).issued| + 2 < U64
    ensures OutgoingOk(EncodeMixed(before, att, ps, rt, others), att)
    decreases |att|
  {
    if att != [] {
      var n := |att| - 1;
      var o := EncodeMixed(before, att[..n], ps, rt, others);
      NextGrows(o, others(n), att[n], ps[n], rt);
      EncodeMixedOk(before, att[..n], ps, rt, others);
      EncodeNextOk(o, others(n), att[..n], att[n], ps[n], rt);
      AttachmentsSplit(att);
    }
  }

  lemma AttachmentsSplit(att: seq<seq<byte>>)
    requires att != []
    ensures att[..|att| - 1] + [att[|att| - 1]] == att
  {
  }

  lemma NextGrows(o: Outgoing, others: seq<Op>, data: seq<byte>, p: Provider, rt: Route)
    ensures |Steps(Begin, o.run).issued| <= |Steps(Begin, EncodeNext(o, others, data, p, rt).run).issued|
  {
    var ops := others + OneOps(Steps(Begin, o.run + others).e, data, p, rt);
    assert EncodeNext(o, others, data, p, rt).run == o.run + ops;
    StepsAppend(Begin, o.run, ops);
    IssuedGrows(Steps(Begin, o.run), ops);
  }

  // ---------------------------------------------------------------- decoding

  /** The sender's run so far and the data read, None after an exception. */
  datatype Incoming = Incoming(run: seq<Op>, data: Option<seq<seq<byte>>>)

  function AckOps(p: Payload, ack: bool): seq<Op> {
    if p.Remote? && DescOk(p.d) && ack then [Ack(AckBody(p.d.handle))] else []
  }

  function DecodeNext(i: Incoming, others: seq<Op>, p: Payload, ack: bool): Incoming {
    if i.data.None? then i
    else
      var run := i.run + others;
      var data := DecodeOne(Loaded(Steps(Begin, run).e, i.data), p, ack, true).data;
      Incoming(run + if data.Some? then AckOps(p, ack) else [], data)
  }

  /** Reading after a run, with others(i) happening before payload i. */
  function DecodeMixed(before: seq<Op>, ps: seq<Payload>, acks: nat -> bool, others: nat -> seq<Op>): Incoming {
    if ps == [] then Incoming(before, Some([]))
    else
      var n := |ps| - 1;
      DecodeNext(DecodeMixed(before, ps[..n], acks, others), others(n), ps[n], acks(n))
  }

  /** What the others do before each payload is read spares those still to read. */
  ghost predicate DecodeSpared(ps: seq<Payload>, others: nat -> seq<Op>) {
    forall n :: 0 <= n < |ps| ==> Spared(others(n), ps[n..])
  }

  /** The acknowledgement of one payload releases its region and no later one. */
  lemma AckSpares(ps: seq<Payload>, n: nat, ack: bool)
    requires n < |ps| && Apart(ps)
    ensures Spared(AckOps(ps[n], ack), ps[n + 1..])
  {
    if ps[n].Remote? && DescOk(ps[n].d) {
      AckRoundTrip(ps[n].d.handle);
    }
  }

  lemma CarriesTail(ps: seq<Payload>, att: seq<seq<byte>>, n: nat, rs: seq<Region>)
    requires n < |ps| == |att| && Carries(ps[n..], att[n..], rs)
    ensures PayloadOk(ps[n], att[n], rs) && Carries(ps[n + 1..], att[n + 1..], rs)
  {
    assert ps[n..][0] == ps[n] && att[n..][0] == att[n];
    var rest, data := ps[n + 1..], att[n + 1..];
    forall i | 0 <= i < |rest| ensures PayloadOk(rest[i], data[i], rs) {
      assert rest[i] == ps[n..][i + 1] && data[i] == att[n..][i + 1];
    }
  }

  /** What holds when the first n payloads have been read. */
  ghost predicate ReadSoFar(i: Incoming, ps: seq<Payload>, att: seq<seq<byte>>, n: nat)
    requires n <= |ps| == |att|
  {
    i.data == Some(att[..n]) && Carries(ps[n..], att[n..], Steps(Begin, i.run).e.regions)
  }

  lemma DecodeNextOk(i: Incoming, others: seq<Op>, ps: seq<Payload>, att: seq<seq<byte>>, n: nat, ack: bool)
    requires n < |ps| == |att| && Apart(ps) && ReadSoFar(i, ps, att, n) && Spared(others, ps[n..])
    requires |Steps(Begin, i.run + others).issued| < U64
    ensures ReadSoFar(DecodeNext(i, others, ps[n], ack), ps, att, n + 1)
  {
    var h, run := Steps(Begin, i.run), i.run + others;
    StepsAppend(Begin, i.run, others);
    StillCarries(h, others, ps[n..], att[n..]);
    var h1 := Steps(Begin, run);
    CarriesTail(ps, att, n, h1.e.regions);
    RunReadable(run);
    DecodeOneExact(Loaded(h1.e, i.data), ps[n], att[n], ack);
    assert att[..n] + [att[n]] == att[..n + 1];
    AckSpares(ps, n, ack);
    StepsAppend(Begin, run, AckOps(ps[n], ack));
    StillCarries(h1, AckOps(ps[n], ack), ps[n + 1..], att[n + 1..]);
  }

  lemma {:induction false} DecodeMixedOk(before: seq<Op>, ps: seq<Payload>, att: seq<seq<byte>>, acks: nat -> bool,
                                         others: nat -> seq<Op>, n: nat)
    requires n <= |ps| == |att| && Apart(ps) && Carries(ps, att, Steps(Begin, before).e.regions)
    requires DecodeSpared(ps, others)
    requires |Steps(Begin, DecodeMixed(before, ps[..n], acks, others).run).issued| < U64
    ensures ReadSoFar(DecodeMixed(before, ps[..n], acks, others), ps, att, n)
    decreases n
  {
    if n == 0 {
      assert ps[0..] == ps && att[0..] == att;
    } else {
      var i := DecodeMixed(before, ps[..n - 1], acks, others);
      assert ps[..n][..n - 1] == ps[..n - 1];
      ReadGrows(i, others(n - 1), ps[n - 1], acks(n - 1));
      DecodeMixedOk(before, ps, att, acks, others, n - 1);
      DecodeNextOk(i, others(n - 1), ps, att, n - 1, acks(n - 1));
    }
  }

  lemma ReadGrows(i: Incoming, others: seq<Op>, p: Payload, ack: bool)
    ensures var i' := DecodeNext(i, others, p, ack);
            && |Steps(Begin, i.run).issued| <= |Steps(Begin, i'.run).issued|
            && (i.data.Some? ==> |Steps(Begin, i.run + others).issued| <= |Steps(Begin, i'.run).issued|)
  {
    if i.data.Some? {
      var run, i' := i.run + others, DecodeNext(i, others, p, ack);
      StepsAppend(Begin, i.run, others);
      IssuedGrows(Steps(Begin, i.run), others);
      StepsAppend(Begin, run, i'.run[|run|..]);
      assert i'.run == run + i'.run[|run|..];
      IssuedGrows(Steps(Begin, run), i'.run[|run|..]);
    }
  }

  // ---------------------------------------------------------------- whole messages

  /** attach_load while others use the sender's endpoint. */
  function LoadMixed(before: seq<Op>, wire: Val, acks: nat -> bool, others: nat -> seq<Op>,
                     size: string -> nat): Option<Val> {
    if wire.Dict? && DataKey in wire.keys then
      match Lookup(wire, DataKey)
      case Some(List(vs)) => Restored(wire, DecodeMixed(before, PayloadsOf(vs), acks, others).data, size)
      case _ => None
    else Some(wire)
  }

  lemma LoadsMixed(before: seq<Op>, m: Val, ps: seq<Payload>, acks: nat -> bool,
                   others: nat -> seq<Op>, size: string -> nat)
    requires m.Dict? && |m.keys| == |m.vals| && DataKey !in m.keys
    requires forall p :: p in ps && p.Remote? ==> DescOk(p.d)
    ensures var data := DecodeMixed(before, ps, acks, others).data;
            LoadMixed(before, Put(m, DataKey, List(PayloadVals(ps))), acks, others, size) ==
            if data.None? then None else if data.value == [] then Some(m) else Reinject(m, data.value, size)
  {
    PutWithout(m, DataKey, List(PayloadVals(ps)));
    PayloadsRoundTrip(ps);
  }

  /** The others release nothing these payloads still need, while they are encoded,
      in flight or being read, and the handle counter does not wrap. */
  ghost predicate Undisturbed(before: seq<Op>, att: seq<seq<byte>>, ps: seq<Provider>, rt: Route,
                              encoding: nat -> seq<Op>, after: seq<Op>, reading: nat -> seq<Op>, acks: nat -> bool)
    requires |ps| >= |att|
  {
    && EncodeSpared(before, att, ps, rt, encoding)
    && var o := EncodeMixed(before, att, ps, rt, encoding);
       && Spared(after, o.payloads) && DecodeSpared(o.payloads, reading)
       && |Steps(Begin, DecodeMixed(o.run + after, o.payloads, acks, reading).run).issued| + 2 < U64
  }

  /** Over every interleaving with other users of the sender's endpoint - before
      the message, between any two of its payloads, while it is in flight and
      between any two reads - the receiver restores what was encoded. The others
      may do anything but release what this message still needs. */
  lemma MessageArrivesAmid(before: seq<Op>, w: Writer, msg: Val, thr: int, size: string -> nat, ps: seq<Provider>,
                           rt: Route, encoding: nat -> seq<Op>, after: seq<Op>, reading: nat -> seq<Op>,
                           acks: nat -> bool)
    requires Plain(msg, size) && (msg.Dict? ==> DataKey !in msg.keys)
    requires |ps| >= |Pulled(msg, thr)|
    requires Undisturbed(before, Pulled(msg, thr), ps, rt, encoding, after, reading, acks)
    ensures var o := EncodeMixed(before, Pulled(msg, thr), ps, rt, encoding);
            var wire := WireOf(w, msg, thr, o.payloads);
            && (wire.Ok? <==> Encodable(w, msg, thr))
            && (wire.Ok? ==> LoadMixed(o.run + after, wire.value, acks, reading, size) == Some(Norm(msg, thr)))
  {
    var o := EncodeMixed(before, Pulled(msg, thr), ps, rt, encoding);
    EncodeFailsIff(w, msg, thr, o.payloads);
    if WireOf(w, msg, thr, o.payloads).Ok? {
      BothEnds(before, Pulled(msg, thr), ps, rt, encoding, after, reading, acks);
      EncodedArrives(o.run + after, w, msg, thr, size, o.payloads, acks, reading);
    }
  }

  lemma EncodedArrives(run: seq<Op>, w: Writer, msg: Val, thr: int, size: string -> nat, ps: seq<Payload>,
                       acks: nat -> bool, reading: nat -> seq<Op>)
    requires Plain(msg, size) && (msg.Dict? ==> DataKey !in msg.keys) && WireOf(w, msg, thr, ps).Ok?
    requires forall p :: p in ps && p.Remote? ==> DescOk(p.d)
    requires DecodeMixed(run, ps, acks, reading).data == Some(Pulled(msg, thr))
    ensures LoadMixed(run, WireOf(w, msg, thr, ps).value, acks, reading, size) == Some(Norm(msg, thr))
  {
    if Pulled(msg, thr) == [] {
      PlainArrives(run, w, msg, thr, size, ps, acks, reading);
    } else {
      RestoredAmid(run, w, msg, thr, size, ps, acks, reading);
    }
  }

  lemma PlainArrives(run: seq<Op>, w: Writer, msg: Val, thr: int, size: string -> nat, ps: seq<Payload>,
                     acks: nat -> bool, reading: nat -> seq<Op>)
    requires (msg.Dict? ==> DataKey !in msg.keys) && Pulled(msg, thr) == [] && WireOf(w, msg, thr, ps).Ok?
    ensures LoadMixed(run, WireOf(w, msg, thr, ps).value, acks, reading, size) == Some(Norm(msg, thr))
  {
    NothingPulled(msg, 0, thr);
  }

  /** The attachments that were read are put back where they were taken out. */
  lemma RestoredAmid(run: seq<Op>, w: Writer, msg: Val, thr: int, size: string -> nat, ps: seq<Payload>,
                     acks: nat -> bool, reading: nat -> seq<Op>)
    requires Plain(msg, size) && (msg.Dict? ==> DataKey !in msg.keys)
    requires Pulled(msg, thr) != [] && WireOf(w, msg, thr, ps).Ok?
    requires forall p :: p in ps && p.Remote? ==> DescOk(p.d)
    requires DecodeMixed(run, ps, acks, reading).data == Some(Pulled(msg, thr))
    ensures LoadMixed(run, WireOf(w, msg, thr, ps).value, acks, reading, size) == Some(Norm(msg, thr))
  {
    var att := Pulled(msg, thr);
    MarkedDict(msg, thr, size);
    LoadsMixed(run, Mark(msg, 0, thr), ps, acks, reading, size);
    assert att[0..0 + |att|] == att;
    ReinjectMark(msg, 0, thr, att, size);
  }

  /** The attachments come back, and every descriptor can be named. */
  lemma BothEnds(before: seq<Op>, att: seq<seq<byte>>, ps: seq<Provider>, rt: Route,
                 encoding: nat -> seq<Op>, after: seq<Op>, reading: nat -> seq<Op>, acks: nat -> bool)
    requires |ps| >= |att| && Undisturbed(before, att, ps, rt, encoding, after, reading, acks)
    ensures var o := EncodeMixed(before, att, ps, rt, encoding);
            && DecodeMixed(o.run + after, o.payloads, acks, reading).data == Some(att)
            && (forall p :: p in o.payloads && p.Remote? ==> DescOk(p.d))
  {
    var o := EncodeMixed(before, att, ps, rt, encoding);
    var h, run := Steps(Begin, o.run), o.run + after;
    MixedGrows(run, o.payloads, acks, reading);
    StepsAppend(Begin, o.run, after);
    IssuedGrows(h, after);
    EncodeMixedOk(before, att, ps, rt, encoding);
    RunReadable(o.run);
    RegionsNameable(o.payloads, att, h.e);
    StillCarries(h, after, o.payloads, att);
    var n := |att|;
    assert o.payloads[..n] == o.payloads && att[..n] == att;
    DecodeMixedOk(run, o.payloads, att, acks, reading, n);
  }

  lemma {:induction false} MixedGrows(before: seq<Op>, ps: seq<Payload>, acks: nat -> bool, others: nat -> seq<Op>)
    ensures |Steps(Begin, before).issued| <= |Steps(Begin, DecodeMixed(before, ps, acks, others).run).issued|
    decreases |ps|
  {
    if ps != [] {
      var n := |ps| - 1;
      MixedGrows(before, ps[..n], acks, others);
      ReadGrows(DecodeMixed(before, ps[..n], acks, others), others(n), ps[n], acks(n));
    }
  }
}

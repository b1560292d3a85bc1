/**
  The service directory: records with generations as fencing tokens, peer events
  that arrive in any order, and the event streams subscribers rely on.  Records
  are kept in the insertion order of the source's dictionary.
 */
module Directory {
  import opened Common

  datatype Status = Up | Down | TimedOut | Deregistered

  /** The part of a record that peer events change. */
  datatype Standing = Standing(state: Status, lastSeen: int, changedAt: int, reason: string, deadline: Option<int>)

  datatype Rec = Rec(
    sid: string, stype: string, runtime: string, peer: string, generation: int, endpoint: string, details: string,
    now: Standing)

  datatype PeerKind = Ready | Degraded | Lost | Removed

  datatype PeerEvent = PeerEvent(kind: PeerKind, peer: string, runtime: string, reason: string, at: int)

  datatype ServiceEvent =
    | Connected(rec: Rec)
    | Disconnected(rec: Rec, reason: string)

  /** What a caller asks to register; empty strings are missing fields, except
      for the service type, which may be given as an empty string. */
  datatype Request = Request(
    sid: string, name: string, stype: Option<string>, runtime: string, peer: string, endpoint: string,
    details: string, bindings: nat)

  datatype Error = MissingServiceId | MissingPeerBinding | MissingBindings | LiveRuntime | NotRegistered | Stale

  /** A subscription to one of the two event types; empty filters match everything. */
  datatype Registration = Registration(id: nat, connected: bool, subscriber: string, sid: string, stype: string)

  // ---------------------------------------------------------------- records

  function IndexOf(rs: seq<Rec>, sid: string): (i: nat)
    ensures i <= |rs| && (i < |rs| ==> rs[i].sid == sid)
    ensures forall j :: 0 <= j < i ==> rs[j].sid != sid
  {
    if rs == [] || rs[0].sid == sid then 0 else 1 + IndexOf(rs[1..], sid)
  }

  function Get(rs: seq<Rec>, sid: string): Option<Rec> {
    var i := IndexOf(rs, sid);
    if i < |rs| then Some(rs[i]) else None
  }

  function Put(rs: seq<Rec>, r: Rec): seq<Rec> {
    var i := IndexOf(rs, r.sid);
    if i < |rs| then rs[i := r] else rs + [r]
  }

  function IsUp(rs: seq<Rec>, sid: string): bool {
    Get(rs, sid).Some? && Get(rs, sid).value.now.state.Up?
  }

  predicate Distinct(rs: seq<Rec>) {
    forall i, j :: 0 <= i < j < |rs| ==> rs[i].sid != rs[j].sid
  }

  function ServiceId(q: Request): string {
    if q.sid != "" then q.sid else q.name
  }

  /** The generation a registration gets, or why it is refused. */
  function Admit(rs: seq<Rec>, q: Request): Result<int, Error> {
    var sid := ServiceId(q);
    if sid == "" then Err(MissingServiceId)
    else if q.runtime == "" || q.peer == "" then Err(MissingPeerBinding)
    else match Get(rs, sid)
      case Some(c) =>
        if c.now.state.Up? then
          if c.runtime != q.runtime then Err(LiveRuntime)
          else if q.bindings == 0 then Err(MissingBindings)
          else Ok(c.generation)
        else if q.bindings == 0 then Err(MissingBindings)
        else Ok(c.generation + 1)
      case None => if q.bindings == 0 then Err(MissingBindings) else Ok(1)
  }

  function NewRecord(q: Request, generation: int, now: int): Rec {
    Rec(ServiceId(q), if q.stype.Some? then q.stype.value else "defw.service", q.runtime, q.peer, generation,
        q.endpoint, q.details, Standing(Up, now, now, "", None))
  }

  function Retired(r: Rec, now: int, retention: int): Rec {
    r.(endpoint := "", now := r.now.(state := Deregistered, changedAt := now, deadline := Some(now + retention)))
  }

  predicate Concerns(r: Rec, e: PeerEvent) {
    && r.peer == e.peer
    && (e.runtime == "" || r.runtime == e.runtime)
    && r.now.lastSeen <= e.at
  }

  function LossReason(e: PeerEvent): string {
    if e.reason != "" then e.reason else "peer-removed"
  }

  /** READY revives only a record that was lost. */
  predicate Revives(s: Standing, e: PeerEvent) {
    e.kind.Ready? && (s.state.Down? || s.state.TimedOut?)
  }

  predicate Loses(e: PeerEvent) {
    e.kind.Lost? || e.kind.Removed?
  }

  function Moved(s: Standing, e: PeerEvent, retention: int): Standing {
    if Loses(e) then
      Standing(if LossReason(e) == "heartbeat-timeout" then TimedOut else Down, e.at, e.at,
               LossReason(e), Some(e.at + retention))
    else if Revives(s, e) then Standing(Up, e.at, e.at, "", None)
    else s.(lastSeen := e.at)
  }

  /** What a peer event makes of one record. */
  function Touch(r: Rec, e: PeerEvent, retention: int): Rec {
    if Concerns(r, e) then r.(now := Moved(r.now, e, retention)) else r
  }

  /** The event a touched record owes its subscribers. */
  function Notice(r: Rec, e: PeerEvent, retention: int): seq<ServiceEvent> {
    if !Concerns(r, e) then []
    else if Loses(e) then [Disconnected(Touch(r, e, retention), LossReason(e))]
    else if Revives(r.now, e) then [Connected(Touch(r, e, retention))]
    else []
  }

  function TouchAll(rs: seq<Rec>, e: PeerEvent, retention: int): (out: seq<Rec>)
    ensures |out| == |rs|
    ensures forall i :: 0 <= i < |rs| ==> out[i] == Touch(rs[i], e, retention)
  {
    if rs == [] then [] else [Touch(rs[0], e, retention)] + TouchAll(rs[1..], e, retention)
  }

  function NoticeAll(rs: seq<Rec>, e: PeerEvent, retention: int): seq<ServiceEvent> {
    if rs == [] then [] else Notice(rs[0], e, retention) + NoticeAll(rs[1..], e, retention)
  }

  /** A deadline of zero counts as no deadline, as in the source's truth test. */
  predicate Expired(r: Rec, now: int) {
    r.now.deadline.Some? && r.now.deadline.value != 0 && r.now.deadline.value <= now
  }

  function PurgeAll(rs: seq<Rec>, now: int): (out: seq<Rec>)
    ensures forall r :: r in out <==> r in rs && !Expired(r, now)
  {
    if rs == [] then []
    else (if Expired(rs[0], now) then [] else [rs[0]]) + PurgeAll(rs[1..], now)
  }

  // ---------------------------------------------------------------- subscriptions

  predicate Matches(g: Registration, v: ServiceEvent) {
    && g.connected == v.Connected?
    && (g.sid == "" || g.sid == v.rec.sid)
    && (g.stype == "" || g.stype == v.rec.stype)
  }

  /** A delivered event, tagged with the registration it went to. */
  datatype Delivery = Delivery(to: nat, event: ServiceEvent)

  function Deliveries(gs: seq<Registration>, v: ServiceEvent): seq<Delivery> {
    if gs == [] then []
    else (if Matches(gs[0], v) then [Delivery(gs[0].id, v)] else []) + Deliveries(gs[1..], v)
  }

  /** Registrations survive unless they belong to the runtime that was lost. */
  function DropSubscriber(gs: seq<Registration>, runtime: string): (out: seq<Registration>)
    ensures forall g :: g in out <==> g in gs && g.subscriber != runtime
  {
    if gs == [] then []
    else (if gs[0].subscriber == runtime then [] else [gs[0]]) + DropSubscriber(gs[1..], runtime)
  }

  function DropId(gs: seq<Registration>, id: nat): (out: seq<Registration>)
    ensures forall g :: g in out <==> g in gs && g.id != id
  {
    if gs == [] then []
    else (if gs[0].id == id then [] else [gs[0]]) + DropId(gs[1..], id)
  }

  // ---------------------------------------------------------------- the machine

  /** `pending` holds what the operation inside the transition lock has yet to
      publish; the lock is free when it is empty. */
  datatype Dir = Dir(
    retention: int,
    records: seq<Rec>,
    regs: seq<Registration>,
    pending: seq<ServiceEvent>,
    published: seq<ServiceEvent>,
    log: seq<Delivery>)

  datatype Step =
    | Register(q: Request, now: int)
    | Deregister(sid: string, runtime: string, generation: int, now: int)
    | Peer(e: PeerEvent)
    | Publish
    | Purge(now: int)
    | Subscribe(g: Registration)
    | Unsubscribe(id: nat)

  function DoRegister(d: Dir, q: Request, now: int): Dir {
    match Admit(d.records, q)
    case Err(_) => d
    case Ok(generation) =>
      var r := NewRecord(q, generation, now);
      d.(records := Put(d.records, r),
         pending := if IsUp(d.records, r.sid) then [] else [Connected(r)])
  }

  predicate MayDeregister(rs: seq<Rec>, sid: string, runtime: string, generation: int) {
    Get(rs, sid).Some? && Get(rs, sid).value.runtime == runtime && Get(rs, sid).value.generation == generation
  }

  function DoDeregister(d: Dir, sid: string, runtime: string, generation: int, now: int): Dir {
    if !MayDeregister(d.records, sid, runtime, generation) then d
    else
      var r := Retired(Get(d.records, sid).value, now, d.retention);
      d.(records := Put(d.records, r), pending := [Disconnected(r, "deregistered")])
  }

  function DoPeer(d: Dir, e: PeerEvent): Dir {
    d.(records := TouchAll(d.records, e, d.retention),
       regs := if Loses(e) && e.runtime != "" then DropSubscriber(d.regs, e.runtime) else d.regs,
       pending := NoticeAll(d.records, e, d.retention))
  }

  function DoPublish(d: Dir): Dir
    requires d.pending != []
  {
    d.(pending := d.pending[1..], published := d.published + [d.pending[0]],
       log := d.log + Deliveries(d.regs, d.pending[0]))
  }

  predicate Enabled(d: Dir, t: Step) {
    match t
    case Register(_, _) => d.pending == []
    case Deregister(_, _, _, _) => d.pending == []
    case Peer(_) => d.pending == []
    case Publish => d.pending != []
    case Purge(_) => true
    case Subscribe(g) => g.subscriber != "" && forall h :: h in d.regs ==> h.id != g.id
    case Unsubscribe(_) => true
  }

  function Next(d: Dir, t: Step): Dir
    requires Enabled(d, t)
  {
    match t
    case Register(q, now) => DoRegister(d, q, now)
    case Deregister(sid, runtime, generation, now) => DoDeregister(d, sid, runtime, generation, now)
    case Peer(e) => DoPeer(d, e)
    case Publish => DoPublish(d)
    case Purge(now) => d.(records := PurgeAll(d.records, now))
    case Subscribe(g) => d.(regs := d.regs + [g])
    case Unsubscribe(id) => d.(regs := DropId(d.regs, id))
  }

  predicate Run(d: Dir, steps: seq<Step>, d': Dir)
    decreases |steps|
  {
    if steps == [] then d == d'
    else Enabled(d, steps[0]) && Run(Next(d, steps[0]), steps[1..], d')
  }

  // ---------------------------------------------------------------- record facts

  /** A record is UP exactly when nothing will ever purge it. */
  predicate RecOk(r: Rec) {
    && (r.now.state.Up? <==> r.now.deadline.None?)
    && (r.now.state.Up? ==> r.now.reason == "")
  }

  predicate RecordsOk(rs: seq<Rec>) {
    Distinct(rs) && forall r :: r in rs ==> RecOk(r)
  }

  lemma IndexUnique(rs: seq<Rec>, i: nat, sid: string)
    requires Distinct(rs) && i < |rs| && rs[i].sid == sid
    ensures IndexOf(rs, sid) == i && Get(rs, sid) == Some(rs[i])
  {
  }

  lemma GetAbsent(rs: seq<Rec>, sid: string)
    requires forall r :: r in rs ==> r.sid != sid
    ensures Get(rs, sid) == None
  {
  }

  lemma GetPut(rs: seq<Rec>, r: Rec, sid: string)
    requires Distinct(rs)
    ensures Distinct(Put(rs, r))
    ensures Get(Put(rs, r), sid) == if sid == r.sid then Some(r) else Get(rs, sid)
    ensures forall x :: x in Put(rs, r) ==> x == r || x in rs
  {
    var out := Put(rs, r);
    var i := IndexOf(rs, r.sid);
    if sid == r.sid {
      assert out[i] == r;
      IndexUnique(out, i, sid);
    } else {
      var j := IndexOf(rs, sid);
      if j < |rs| {
        assert out[j] == rs[j];
        IndexUnique(out, j, sid);
      } else {
        assert forall k :: 0 <= k < |rs| ==> rs[k].sid != sid;
        GetAbsent(out, sid);
      }
    }
  }

  lemma {:induction false} GetTouched(rs: seq<Rec>, e: PeerEvent, retention: int, sid: string)
    requires Distinct(rs)
    ensures Distinct(TouchAll(rs, e, retention))
    ensures Get(TouchAll(rs, e, retention), sid)
         == match Get(rs, sid) case Some(r) => Some(Touch(r, e, retention)) case None => None
  {
    var out := TouchAll(rs, e, retention);
    var i := IndexOf(rs, sid);
    if i < |rs| {
      IndexUnique(out, i, sid);
    } else {
      GetAbsent(out, sid);
    }
  }

  lemma GetTail(rs: seq<Rec>, sid: string)
    requires rs != []
    ensures Get(rs, sid) == if rs[0].sid == sid then Some(rs[0]) else Get(rs[1..], sid)
  {
  }

  lemma GetIn(rs: seq<Rec>, r: Rec)
    requires Distinct(rs) && r in rs
    ensures Get(rs, r.sid) == Some(r)
  {
    var i :| 0 <= i < |rs| && rs[i] == r;
    IndexUnique(rs, i, r.sid);
  }

  lemma DistinctTail(rs: seq<Rec>)
    requires rs != [] && Distinct(rs)
    ensures Distinct(rs[1..])
    ensures forall r :: r in rs[1..] ==> r in rs && r.sid != rs[0].sid
  {
    assert forall i :: 0 <= i < |rs| - 1 ==> rs[1..][i] == rs[i + 1];
  }

  lemma {:induction false} PurgedDistinct(rs: seq<Rec>, now: int)
    requires Distinct(rs)
    ensures Distinct(PurgeAll(rs, now))
  {
    if rs != [] {
      DistinctTail(rs);
      PurgedDistinct(rs[1..], now);
      var rest := PurgeAll(rs[1..], now);
      assert forall i :: 0 <= i < |rest| ==> rest[i] in rest && rest[i] in rs[1..];
    }
  }

  lemma GetPurged(rs: seq<Rec>, now: int, sid: string)
    requires Distinct(rs)
    ensures var g := Get(rs, sid);
            Get(PurgeAll(rs, now), sid) == if g.Some? && !Expired(g.value, now) then g else None
  {
    PurgedDistinct(rs, now);
    var g := Get(rs, sid);
    var out := PurgeAll(rs, now);
    forall r | r in out && r.sid == sid ensures g == Some(r) { GetIn(rs, r); }
    if g.Some? && !Expired(g.value, now) {
      assert g.value in rs by { assert rs[IndexOf(rs, sid)] == g.value; }
      GetIn(out, g.value);
    } else {
      GetAbsent(out, sid);
    }
  }

  lemma TouchOk(r: Rec, e: PeerEvent, retention: int)
    requires RecOk(r)
    ensures RecOk(Touch(r, e, retention))
    ensures Notice(r, e, retention) == [] ==> Touch(r, e, retention).now.state == r.now.state
    ensures Notice(r, e, retention) != [] ==>
              && |Notice(r, e, retention)| == 1
              && Notice(r, e, retention)[0].rec.sid == r.sid
              && (Notice(r, e, retention)[0].Connected? <==> Touch(r, e, retention).now.state.Up?)
              && (Notice(r, e, retention)[0].Connected? ==> !r.now.state.Up?)
  {
  }

  // ---------------------------------------------------------------- what a stream says

  /** Folding a stream of events: is `sid` connected after it? */
  function Believes(vs: seq<ServiceEvent>, sid: string): bool {
    if vs == [] then false
    else if vs[|vs| - 1].rec.sid == sid then vs[|vs| - 1].Connected?
    else Believes(vs[..|vs| - 1], sid)
  }

  lemma BelievesPush(vs: seq<ServiceEvent>, v: ServiceEvent, sid: string)
    ensures Believes(vs + [v], sid) == if v.rec.sid == sid then v.Connected? else Believes(vs, sid)
  {
    assert (vs + [v])[..|vs|] == vs;
  }

  /** The event at `i` is news to someone who followed the stream up to it. */
  predicate NewsAt(vs: seq<ServiceEvent>, i: nat)
    requires i < |vs|
  {
    vs[i].Connected? ==> !Believes(vs[..i], vs[i].rec.sid)
  }

  predicate Fresh(vs: seq<ServiceEvent>) {
    forall i :: 0 <= i < |vs| ==> NewsAt(vs, i)
  }

  lemma FreshPush(vs: seq<ServiceEvent>, v: ServiceEvent)
    requires Fresh(vs) && (v.Connected? ==> !Believes(vs, v.rec.sid))
    ensures Fresh(vs + [v])
  {
    var ws := vs + [v];
    forall i | 0 <= i < |ws| ensures NewsAt(ws, i) {
      assert ws[..i] == vs[..i];
      if i < |vs| { assert NewsAt(vs, i); } else { assert vs[..i] == vs; }
    }
  }

  /** One record's notice, appended to a stream that knew whether it was up. */
  lemma NoticeTold(vs: seq<ServiceEvent>, r: Rec, e: PeerEvent, retention: int, sid: string)
    requires RecOk(r) && Fresh(vs) && Believes(vs, r.sid) == r.now.state.Up?
    ensures Fresh(vs + Notice(r, e, retention))
    ensures Believes(vs + Notice(r, e, retention), sid)
         == if r.sid == sid then Touch(r, e, retention).now.state.Up? else Believes(vs, sid)
  {
    var n := Notice(r, e, retention);
    TouchOk(r, e, retention);
    if n == [] {
      assert vs + n == vs;
    } else {
      assert n == [n[0]];
      FreshPush(vs, n[0]);
      BelievesPush(vs, n[0], sid);
    }
  }

  /** The notices of one peer event, appended to a stream that knew which of
      these services were up. */
  lemma {:induction false} NoticesTold(vs: seq<ServiceEvent>, rs: seq<Rec>, e: PeerEvent, retention: int, sid: string)
    requires RecordsOk(rs)
    requires Fresh(vs) && forall r :: r in rs ==> Believes(vs, r.sid) == r.now.state.Up?
    ensures Fresh(vs + NoticeAll(rs, e, retention))
    ensures Believes(vs + NoticeAll(rs, e, retention), sid)
         == match Get(rs, sid) case Some(r) => Touch(r, e, retention).now.state.Up? case None => Believes(vs, sid)
    decreases |rs|
  {
    if rs == [] {
      assert vs + NoticeAll(rs, e, retention) == vs;
    } else {
      assert rs[0] in rs;
      var ws := vs + Notice(rs[0], e, retention);
      DistinctTail(rs);
      NoticeTold(vs, rs[0], e, retention, sid);
      forall r | r in rs[1..] ensures Believes(ws, r.sid) == r.now.state.Up? {
        NoticeTold(vs, rs[0], e, retention, r.sid);
      }
      NoticesTold(ws, rs[1..], e, retention, sid);
      assert vs + NoticeAll(rs, e, retention) == ws + NoticeAll(rs[1..], e, retention);
      GetTail(rs, sid);
      if rs[0].sid == sid { GetAbsent(rs[1..], sid); }
    }
  }

  // ---------------------------------------------------------------- the invariant

  ghost predicate Inv(d: Dir) {
    && RecordsOk(d.records)
    && Fresh(d.published + d.pending)
    && forall sid :: Believes(d.published + d.pending, sid) == IsUp(d.records, sid)
  }

  lemma RegisterInv(d: Dir, q: Request, now: int)
    requires Inv(d) && d.pending == []
    ensures Inv(DoRegister(d, q, now))
  {
    if Admit(d.records, q).Ok? {
      var d' := DoRegister(d, q, now);
      var r := NewRecord(q, Admit(d.records, q).value, now);
      assert d.published + d.pending == d.published;
      forall sid ensures Believes(d'.published + d'.pending, sid) == IsUp(d'.records, sid) {
        GetPut(d.records, r, sid);
        if d'.pending == [] {
          assert d'.published + d'.pending == d.published;
        } else {
          BelievesPush(d.published, Connected(r), sid);
        }
      }
      GetPut(d.records, r, r.sid);
      if d'.pending == [] {
        assert d'.published + d'.pending == d.published;
      } else {
        FreshPush(d.published, Connected(r));
      }
    }
  }

  lemma DeregisterInv(d: Dir, sid: string, runtime: string, generation: int, now: int)
    requires Inv(d) && d.pending == []
    ensures Inv(DoDeregister(d, sid, runtime, generation, now))
  {
    if MayDeregister(d.records, sid, runtime, generation) {
      var d' := DoDeregister(d, sid, runtime, generation, now);
      var r := Retired(Get(d.records, sid).value, now, d.retention);
      assert d.published + d.pending == d.published;
      forall x ensures Believes(d'.published + d'.pending, x) == IsUp(d'.records, x) {
        GetPut(d.records, r, x);
        BelievesPush(d.published, Disconnected(r, "deregistered"), x);
      }
      GetPut(d.records, r, sid);
      FreshPush(d.published, Disconnected(r, "deregistered"));
    }
  }

  /** A peer event leaves every record in order. */
  lemma TouchedRecordsOk(rs: seq<Rec>, e: PeerEvent, retention: int)
    requires RecordsOk(rs)
    ensures RecordsOk(TouchAll(rs, e, retention))
  {
    var out := TouchAll(rs, e, retention);
    GetTouched(rs, e, retention, "");
    forall r | r in out ensures RecOk(r) {
      var i :| 0 <= i < |rs| && out[i] == r;
      TouchOk(rs[i], e, retention);
    }
  }

  /** A stream that knew which services are UP knows it after the event's notices. */
  lemma PeerTold(vs: seq<ServiceEvent>, rs: seq<Rec>, e: PeerEvent, retention: int, sid: string)
    requires RecordsOk(rs) && Fresh(vs) && Believes(vs, sid) == IsUp(rs, sid)
    requires forall r :: r in rs ==> Believes(vs, r.sid) == r.now.state.Up?
    ensures Fresh(vs + NoticeAll(rs, e, retention))
    ensures Believes(vs + NoticeAll(rs, e, retention), sid) == IsUp(TouchAll(rs, e, retention), sid)
  {
    NoticesTold(vs, rs, e, retention, sid);
    GetTouched(rs, e, retention, sid);
  }

  lemma PeerInv(d: Dir, e: PeerEvent)
    requires Inv(d) && d.pending == []
    ensures Inv(DoPeer(d, e))
  {
    var d' := DoPeer(d, e);
    var vs := d.published;
    assert vs + d.pending == vs;
    forall r | r in d.records ensures Believes(vs, r.sid) == r.now.state.Up? { GetIn(d.records, r); }
    forall sid
      ensures Fresh(d'.published + d'.pending) && Believes(d'.published + d'.pending, sid) == IsUp(d'.records, sid) {
      assert Believes(vs, sid) == IsUp(d.records, sid);
      PeerTold(vs, d.records, e, d.retention, sid);
    }
    assert Believes(d'.published + d'.pending, "") == IsUp(d'.records, "");
    TouchedRecordsOk(d.records, e, d.retention);
  }

  lemma PurgeInv(d: Dir, now: int)
    requires Inv(d)
    ensures Inv(d.(records := PurgeAll(d.records, now)))
  {
    forall sid ensures IsUp(PurgeAll(d.records, now), sid) == IsUp(d.records, sid) {
      GetPurged(d.records, now, sid);
      var i := IndexOf(d.records, sid);
      assert i < |d.records| ==> d.records[i] in d.records;
    }
    PurgedDistinct(d.records, now);
  }

  lemma StepInv(d: Dir, t: Step)
    requires Inv(d) && Enabled(d, t)
    ensures Inv(Next(d, t))
  {
    match t
    case Register(q, now) => RegisterInv(d, q, now);
    case Deregister(sid, runtime, generation, now) => DeregisterInv(d, sid, runtime, generation, now);
    case Peer(e) => PeerInv(d, e);
    case Publish =>
      assert d.published + [d.pending[0]] + d.pending[1..] == d.published + d.pending;
    case Purge(now) => PurgeInv(d, now);
    case Subscribe(_) =>
    case Unsubscribe(_) =>
  }

  lemma {:induction false} RunInv(d: Dir, steps: seq<Step>, d': Dir)
    requires Inv(d) && Run(d, steps, d')
    ensures Inv(d')
    decreases |steps|
  {
    if steps != [] {
      StepInv(d, steps[0]);
      RunInv(Next(d, steps[0]), steps[1..], d');
    }
  }

  // ---------------------------------------------------------------- subscribers

  /** A subscriber of both event types under one service_id filter. */
  datatype Subscriber = Subscriber(up: Registration, down: Registration)

  predicate Follows(u: Subscriber) {
    && u.up.connected && !u.down.connected && u.up.id != u.down.id
    && u.up.sid == u.down.sid && u.up.stype == u.down.stype == ""
    && u.up.subscriber == u.down.subscriber
  }

  predicate IdsOk(gs: seq<Registration>) {
    forall i, j :: 0 <= i < j < |gs| ==> gs[i].id != gs[j].id
  }

  predicate Present(u: Subscriber, gs: seq<Registration>) {
    u.up in gs && u.down in gs && IdsOk(gs)
  }

  /** Steps that neither unsubscribe it nor report its own runtime lost. */
  predicate Spares(u: Subscriber, t: Step) {
    match t
    case Unsubscribe(id) => id != u.up.id && id != u.down.id
    case Peer(e) => !(Loses(e) && e.runtime != "" && e.runtime == u.up.subscriber)
    case Register(_, _) => true
    case Deregister(_, _, _, _) => true
    case Publish => true
    case Purge(_) => true
    case Subscribe(_) => true
  }

  predicate Listens(u: Subscriber, sid: string) {
    u.up.sid == "" || u.up.sid == sid
  }

  /** What the subscriber's two callbacks received, in order. */
  function Heard(ds: seq<Delivery>, u: Subscriber): seq<ServiceEvent> {
    if ds == [] then []
    else (if ds[0].to == u.up.id || ds[0].to == u.down.id then [ds[0].event] else []) + Heard(ds[1..], u)
  }

  /** The published events its filter lets through. */
  function Selected(vs: seq<ServiceEvent>, u: Subscriber): seq<ServiceEvent> {
    if vs == [] then []
    else (if Listens(u, vs[0].rec.sid) then [vs[0]] else []) + Selected(vs[1..], u)
  }

  lemma {:induction false} HeardAppend(a: seq<Delivery>, b: seq<Delivery>, u: Subscriber)
    ensures Heard(a + b, u) == Heard(a, u) + Heard(b, u)
    decreases |a|
  {
    if a == [] {
      assert a + b == b;
    } else {
      assert (a + b)[1..] == a[1..] + b;
      HeardAppend(a[1..], b, u);
    }
  }

  lemma {:induction false} SelectedPush(vs: seq<ServiceEvent>, v: ServiceEvent, u: Subscriber)
    ensures Selected(vs + [v], u) == Selected(vs, u) + if Listens(u, v.rec.sid) then [v] else []
    decreases |vs|
  {
    if vs != [] {
      assert (vs + [v])[1..] == vs[1..] + [v];
      SelectedPush(vs[1..], v, u);
    }
  }

  /** The registration of the pair that takes events like `v`. */
  function Taker(u: Subscriber, v: ServiceEvent): Registration {
    if v.Connected? then u.up else u.down
  }

  lemma {:induction false} DeliveredOnce(gs: seq<Registration>, v: ServiceEvent, u: Subscriber)
    requires Follows(u) && IdsOk(gs)
    requires forall g :: g in gs && (g.id == u.up.id || g.id == u.down.id) ==> g == u.up || g == u.down
    ensures Heard(Deliveries(gs, v), u) == if Taker(u, v) in gs && Listens(u, v.rec.sid) then [v] else []
    decreases |gs|
  {
    if gs != [] {
      var rest := gs[1..];
      assert forall i :: 0 <= i < |rest| ==> rest[i] == gs[i + 1];
      DeliveredOnce(rest, v, u);
      var first := if Matches(gs[0], v) then [Delivery(gs[0].id, v)] else [];
      HeardAppend(first, Deliveries(rest, v), u);
      assert gs[0] in gs;
      assert Heard(first, u) == if gs[0] == Taker(u, v) && Listens(u, v.rec.sid) then [v] else [] by {
        assert first != [] ==> first[1..] == [];
      }
      if gs[0] == Taker(u, v) { assert Taker(u, v) !in rest; }
    }
  }

  lemma OwnIds(gs: seq<Registration>, u: Subscriber)
    requires Present(u, gs)
    ensures forall g :: g in gs && (g.id == u.up.id || g.id == u.down.id) ==> g == u.up || g == u.down
  {
    forall g | g in gs && (g.id == u.up.id || g.id == u.down.id) ensures g == u.up || g == u.down {
      var i :| 0 <= i < |gs| && gs[i] == g;
      var j :| 0 <= j < |gs| && gs[j] == u.up;
      var k :| 0 <= k < |gs| && gs[k] == u.down;
    }
  }

  lemma IdsCons(g: Registration, gs: seq<Registration>)
    requires IdsOk(gs) && forall h :: h in gs ==> h.id != g.id
    ensures IdsOk([g] + gs)
  {
    var out := [g] + gs;
    forall i, j | 0 <= i < j < |out| ensures out[i].id != out[j].id {
      assert out[j] == gs[j - 1] && out[j] in gs;
      if i > 0 { assert out[i] == gs[i - 1]; }
    }
  }

  lemma IdsTail(gs: seq<Registration>)
    requires gs != [] && IdsOk(gs)
    ensures IdsOk(gs[1..]) && forall h :: h in gs[1..] ==> h.id != gs[0].id
  {
    assert forall i :: 0 <= i < |gs| - 1 ==> gs[1..][i] == gs[i + 1];
  }

  lemma {:induction false} DropKeepsIds(gs: seq<Registration>, runtime: string, id: nat)
    requires IdsOk(gs)
    ensures IdsOk(DropSubscriber(gs, runtime)) && IdsOk(DropId(gs, id))
    decreases |gs|
  {
    if gs != [] {
      IdsTail(gs);
      DropKeepsIds(gs[1..], runtime, id);
      IdsCons(gs[0], DropSubscriber(gs[1..], runtime));
      IdsCons(gs[0], DropId(gs[1..], id));
      assert [] + DropSubscriber(gs[1..], runtime) == DropSubscriber(gs[1..], runtime);
      assert [] + DropId(gs[1..], id) == DropId(gs[1..], id);
    }
  }

  lemma StepHeard(d: Dir, t: Step, u: Subscriber)
    requires Follows(u) && Present(u, d.regs) && Enabled(d, t) && Spares(u, t)
    requires Heard(d.log, u) == Selected(d.published, u)
    ensures Present(u, Next(d, t).regs)
    ensures Heard(Next(d, t).log, u) == Selected(Next(d, t).published, u)
  {
    match t
    case Publish =>
      OwnIds(d.regs, u);
      DeliveredOnce(d.regs, d.pending[0], u);
      HeardAppend(d.log, Deliveries(d.regs, d.pending[0]), u);
      SelectedPush(d.published, d.pending[0], u);
    case Unsubscribe(id) => DropKeepsIds(d.regs, "", id);
    case Peer(e) => DropKeepsIds(d.regs, e.runtime, 0);
    case Register(_, _) =>
    case Deregister(_, _, _, _) =>
    case Purge(_) =>
    case Subscribe(g) =>
  }

  lemma {:induction false} RunHeard(d: Dir, steps: seq<Step>, d': Dir, u: Subscriber)
    requires Follows(u) && Present(u, d.regs) && Run(d, steps, d')
    requires forall t :: t in steps ==> Spares(u, t)
    requires Heard(d.log, u) == Selected(d.published, u)
    ensures Heard(d'.log, u) == Selected(d'.published, u)
    decreases |steps|
  {
    if steps != [] {
      StepHeard(d, steps[0], u);
      RunHeard(Next(d, steps[0]), steps[1..], d', u);
    }
  }

  lemma {:induction false} SelectedBelief(vs: seq<ServiceEvent>, u: Subscriber, sid: string)
    requires Listens(u, sid)
    ensures Believes(Selected(vs, u), sid) == Believes(vs, sid)
    decreases |vs|
  {
    if vs != [] {
      var rest, last := vs[..|vs| - 1], vs[|vs| - 1];
      assert vs == rest + [last];
      SelectedPush(rest, last, u);
      SelectedBelief(rest, u, sid);
      SelectedStep(rest, Selected(rest, u), last, u, sid);
    }
  }

  lemma SelectedStep(vs: seq<ServiceEvent>, ws: seq<ServiceEvent>, v: ServiceEvent, u: Subscriber, sid: string)
    requires Listens(u, sid) && Believes(ws, sid) == Believes(vs, sid)
    ensures Believes(ws + if Listens(u, v.rec.sid) then [v] else [], sid) == Believes(vs + [v], sid)
  {
    BelievesPush(vs, v, sid);
    BelievesPush(ws, v, sid);
    assert ws + [] == ws;
  }

  // ---------------------------------------------------------------- results

  /** An empty directory whose registrations have distinct ids. */
  predicate Begins(d: Dir) {
    d.records == [] && d.pending == [] && d.published == [] && d.log == [] && IdsOk(d.regs)
  }

  /** Whoever follows both event streams from the start knows exactly which
      services are UP whenever the transition lock is free. */
  lemma SubscriberKnows(d: Dir, steps: seq<Step>, d': Dir, u: Subscriber, sid: string)
    requires Begins(d) && Run(d, steps, d') && d'.pending == []
    requires Follows(u) && Present(u, d.regs) && (forall t :: t in steps ==> Spares(u, t))
    requires Listens(u, sid)
    ensures Believes(Heard(d'.log, u), sid) == IsUp(d'.records, sid)
  {
    RunInv(d, steps, d');
    RunHeard(d, steps, d', u);
    SelectedBelief(d'.published, u, sid);
    assert d'.published + d'.pending == d'.published;
  }

  lemma {:induction false} BeliefNeedsLoss(vs: seq<ServiceEvent>, i: nat, j: nat, sid: string)
    requires i <= j <= |vs| && Believes(vs[..i], sid) && !Believes(vs[..j], sid)
    ensures exists k :: i <= k < j && vs[k].Disconnected? && vs[k].rec.sid == sid
    decreases j
  {
    if i < j {
      assert vs[..j] == vs[..j - 1] + [vs[j - 1]];
      BelievesPush(vs[..j - 1], vs[j - 1], sid);
      if vs[j - 1].rec.sid != sid {
        BeliefNeedsLoss(vs, i, j - 1, sid);
      }
    }
  }

  /** Between two CONNECTED events of a service there is a DISCONNECTED. */
  lemma ConnectedAlternates(d: Dir, steps: seq<Step>, d': Dir, i: nat, j: nat)
    requires Begins(d) && Run(d, steps, d')
    requires i < j < |d'.published| && d'.published[i].Connected? && d'.published[j].Connected?
    requires d'.published[i].rec.sid == d'.published[j].rec.sid
    ensures exists k :: i < k < j && d'.published[k].Disconnected? && d'.published[k].rec.sid == d'.published[i].rec.sid
  {
    RunInv(d, steps, d');
    FreshAlternates(d'.published, d'.pending, i, j);
  }

  lemma FreshAlternates(vs: seq<ServiceEvent>, pending: seq<ServiceEvent>, i: nat, j: nat)
    requires Fresh(vs + pending) && i < j < |vs| && vs[i].Connected? && vs[j].Connected?
    requires vs[i].rec.sid == vs[j].rec.sid
    ensures exists k :: i < k < j && vs[k].Disconnected? && vs[k].rec.sid == vs[i].rec.sid
  {
    var ws := vs + pending;
    var sid := vs[i].rec.sid;
    assert NewsAt(ws, j) && ws[..j] == vs[..j];
    assert vs[..i + 1] == vs[..i] + [vs[i]];
    BelievesPush(vs[..i], vs[i], sid);
    BeliefNeedsLoss(vs, i + 1, j, sid);
  }

  /** Purging never removes a service that is UP. */
  lemma PurgeSparesUp(d: Dir, steps: seq<Step>, d': Dir, now: int, sid: string)
    requires Begins(d) && Run(d, steps, d') && IsUp(d'.records, sid)
    ensures Get(PurgeAll(d'.records, now), sid) == Get(d'.records, sid)
  {
    RunInv(d, steps, d');
    GetPurged(d'.records, now, sid);
    assert d'.records[IndexOf(d'.records, sid)] in d'.records;
  }

  /** No registration has one of these ids. */
  predicate Silent(gs: seq<Registration>, ids: set<nat>) {
    forall g :: g in gs ==> g.id !in ids
  }

  function IdsOf(gs: seq<Registration>, runtime: string): set<nat> {
    set g | g in gs && g.subscriber == runtime :: g.id
  }

  lemma {:induction false} DeliveredToRegistered(gs: seq<Registration>, v: ServiceEvent, ids: set<nat>)
    requires Silent(gs, ids)
    ensures forall x :: x in Deliveries(gs, v) ==> x.to !in ids
    decreases |gs|
  {
    if gs != [] { DeliveredToRegistered(gs[1..], v, ids); }
  }

  /** New registrations get ids of their own. */
  predicate FreshIds(steps: seq<Step>, ids: set<nat>) {
    forall t :: t in steps && t.Subscribe? ==> t.g.id !in ids
  }

  lemma {:induction false} StaysSilent(d: Dir, steps: seq<Step>, d': Dir, ids: set<nat>)
    requires Run(d, steps, d') && Silent(d.regs, ids) && FreshIds(steps, ids)
    ensures d.log <= d'.log && forall i :: |d.log| <= i < |d'.log| ==> d'.log[i].to !in ids
    decreases |steps|
  {
    if steps != [] {
      var t, d1 := steps[0], Next(d, steps[0]);
      assert t in steps;
      if t.Publish? { DeliveredToRegistered(d.regs, d.pending[0], ids); }
      assert Silent(d1.regs, ids);
      assert d.log <= d1.log && forall i :: |d.log| <= i < |d1.log| ==> d1.log[i] in d1.log[|d.log|..];
      StaysSilent(d1, steps[1..], d', ids);
    }
  }

  lemma SameId(gs: seq<Registration>, g: Registration, h: Registration)
    requires IdsOk(gs) && g in gs && h in gs && g.id == h.id
    ensures g == h
  {
  }

  lemma NotTheirs(gs: seq<Registration>, runtime: string, g: Registration)
    requires IdsOk(gs) && g in gs && g.subscriber != runtime
    ensures g.id !in IdsOf(gs, runtime)
  {
    forall h | h in gs && h.id == g.id ensures h == g { SameId(gs, g, h); }
  }

  /** A subscriber whose runtime is lost hears nothing more: in every later run no
      event goes to any registration it held, while the others keep theirs. */
  lemma LostSubscriberHearsNothing(d: Dir, e: PeerEvent, steps: seq<Step>, d': Dir)
    requires IdsOk(d.regs) && Loses(e) && e.runtime != "" && Run(DoPeer(d, e), steps, d')
    requires FreshIds(steps, IdsOf(d.regs, e.runtime))
    ensures forall g :: g in DoPeer(d, e).regs <==> g in d.regs && g.subscriber != e.runtime
    ensures d.log <= d'.log && forall i :: |d.log| <= i < |d'.log| ==> d'.log[i].to !in IdsOf(d.regs, e.runtime)
  {
    var ids := IdsOf(d.regs, e.runtime);
    forall g | g in DoPeer(d, e).regs ensures g.id !in ids { NotTheirs(d.regs, e.runtime, g); }
    StaysSilent(DoPeer(d, e), steps, d', ids);
  }

  // ---------------------------------------------------------------- generations

  /** The service is on record in every state of the run: no purge in between. */
  predicate StaysOnRecord(d: Dir, steps: seq<Step>, sid: string)
    decreases |steps|
  {
    && Get(d.records, sid).Some?
    && (steps != [] ==> Enabled(d, steps[0]) && StaysOnRecord(Next(d, steps[0]), steps[1..], sid))
  }

  lemma StepFence(d: Dir, t: Step, sid: string)
    requires RecordsOk(d.records) && Enabled(d, t)
    requires Get(d.records, sid).Some? && Get(Next(d, t).records, sid).Some?
    ensures var r, r' := Get(d.records, sid).value, Get(Next(d, t).records, sid).value;
            r.generation <= r'.generation && (r.generation == r'.generation ==> r.runtime == r'.runtime)
  {
    match t
    case Register(q, now) =>
      if Admit(d.records, q).Ok? { GetPut(d.records, NewRecord(q, Admit(d.records, q).value, now), sid); }
    case Deregister(x, runtime, generation, now) =>
      if MayDeregister(d.records, x, runtime, generation) {
        GetPut(d.records, Retired(Get(d.records, x).value, now, d.retention), sid);
      }
    case Peer(e) => GetTouched(d.records, e, d.retention, sid);
    case Purge(now) => GetPurged(d.records, now, sid);
    case Publish =>
    case Subscribe(_) =>
    case Unsubscribe(_) =>
  }

  /** Between purges a service's generation never decreases, and a generation
      belongs to one runtime. */
  lemma {:induction false} GenerationFence(d: Dir, steps: seq<Step>, d': Dir, sid: string)
    requires Inv(d) && Run(d, steps, d') && StaysOnRecord(d, steps, sid)
    ensures Get(d'.records, sid).Some?
    ensures var r, r' := Get(d.records, sid).value, Get(d'.records, sid).value;
            r.generation <= r'.generation && (r.generation == r'.generation ==> r.runtime == r'.runtime)
    decreases |steps|
  {
    if steps != [] {
      StepInv(d, steps[0]);
      StepFence(d, steps[0], sid);
      GenerationFence(Next(d, steps[0]), steps[1..], d', sid);
    }
  }

  /** A deregistration or peer event made out for an older holder of the service
      leaves the newer record alone. */
  lemma OlderRuntimeFenced(d: Dir, steps: seq<Step>, d': Dir, sid: string, e: PeerEvent, now: int)
    requires Inv(d) && Run(d, steps, d') && StaysOnRecord(d, steps, sid)
    requires Get(d'.records, sid).Some?
    requires var r, r' := Get(d.records, sid).value, Get(d'.records, sid).value;
             r.runtime != r'.runtime || r.generation != r'.generation
    ensures var r := Get(d.records, sid).value;
            && DoDeregister(d', sid, r.runtime, r.generation, now) == d'
            && r.generation < Get(d'.records, sid).value.generation
            && (e.runtime == r.runtime != "" && r.runtime != Get(d'.records, sid).value.runtime ==>
                  Get(DoPeer(d', e).records, sid) == Get(d'.records, sid))
  {
    RunInv(d, steps, d');
    GenerationFence(d, steps, d', sid);
    GetTouched(d'.records, e, d'.retention, sid);
  }

  /** A service's life, from any state: once registered, losing the peer it named
      takes it down, the peer's return brings it back, and its own runtime can
      deregister it with the generation it was given - and a runtime other than
      its own can do none of this. */
  lemma ServiceLife(d: Dir, q: Request, now: int, lost: PeerEvent, ready: PeerEvent)
    requires Inv(d) && Admit(d.records, q).Ok? && lost.peer == ready.peer == q.peer && now <= lost.at <= ready.at
    requires lost.kind.Lost? && ready.kind.Ready? && lost.runtime == ready.runtime
    ensures var sid, generation := ServiceId(q), Admit(d.records, q).value;
            var d1 := DoRegister(d, q, now);
            var d2 := DoPeer(d1, lost);
            var d3 := DoPeer(d2, ready);
            var own := lost.runtime == "" || lost.runtime == q.runtime;
            && IsUp(d1.records, sid) && (IsUp(d2.records, sid) <==> !own) && IsUp(d3.records, sid)
            && Get(d1.records, sid).Some? && Get(d1.records, sid).value.endpoint == q.endpoint
            && MayDeregister(d3.records, sid, q.runtime, generation)
            && (forall r, g :: r != q.runtime || g != generation ==> !MayDeregister(d3.records, sid, r, g))
  {
    var r := NewRecord(q, Admit(d.records, q).value, now);
    var rs1 := Put(d.records, r);
    GetPut(d.records, r, r.sid);
    var rs2 := TouchAll(rs1, lost, d.retention);
    GetTouched(rs1, lost, d.retention, r.sid);
    GetTouched(rs2, ready, d.retention, r.sid);
    RecordLife(r, lost, ready, d.retention);
  }

  lemma RecordLife(r: Rec, lost: PeerEvent, ready: PeerEvent, retention: int)
    requires r.now.state.Up? && lost.peer == ready.peer == r.peer && r.now.lastSeen <= lost.at <= ready.at
    requires lost.kind.Lost? && ready.kind.Ready? && lost.runtime == ready.runtime
    ensures var r2 := Touch(r, lost, retention);
            var r3 := Touch(r2, ready, retention);
            && (r2.now.state.Up? <==> !(lost.runtime == "" || lost.runtime == r.runtime))
            && r3.now.state.Up? && r3.(now := r.now) == r
  {
  }

  // ---------------------------------------------------------------- reordering

  /** Peer events applied one after the other, each on its own thread. */
  function Settle(r: Rec, es: seq<PeerEvent>, retention: int): Rec
    decreases |es|
  {
    if es == [] then r else Settle(Touch(r, es[0], retention), es[1..], retention)
  }

  /** What an event decides if it is the last word on a record. */
  function Verdict(e: PeerEvent, retention: int): Standing {
    if Loses(e) then
      Standing(if LossReason(e) == "heartbeat-timeout" then TimedOut else Down, e.at, 0,
               LossReason(e), Some(e.at + retention))
    else Standing(Up, e.at, 0, "", None)
  }

  /** A standing without the time it was entered. */
  function Observed(s: Standing): Standing {
    s.(changedAt := 0)
  }

  /** One of the latest events that concern the record; several may share a time. */
  predicate Latest(r: Rec, es: seq<PeerEvent>, w: PeerEvent) {
    w in es && Concerns(r, w) && forall e :: e in es && Concerns(r, e) ==> e.at <= w.at
  }

  /** The event decides alone what a record in this standing becomes. */
  predicate Final(s: Standing, w: PeerEvent) {
    Loses(w) || (w.kind.Ready? && !s.state.Deregistered?)
  }

  /** No other latest event says anything else. */
  ghost predicate Agreed(r: Rec, es: seq<PeerEvent>, retention: int, w: PeerEvent) {
    forall f :: Latest(r, es, f) && !f.kind.Degraded? ==> Verdict(f, retention) == Verdict(w, retention)
  }

  /** The event moves nothing but last_seen. */
  predicate Mute(s: Standing, e: PeerEvent, retention: int) {
    Observed(Moved(s, e, retention)) == Observed(s).(lastSeen := e.at)
  }

  /** The latest events that concern the record decide it and agree, or no event
      moves it. */
  ghost predicate Orderly(r: Rec, es: seq<PeerEvent>, retention: int) {
    || (exists w :: Latest(r, es, w) && Final(r.now, w) && Agreed(r, es, retention, w))
    || (forall e :: e in es && Concerns(r, e) ==> Mute(r.now, e, retention))
  }

  lemma TailMembers(es: seq<PeerEvent>)
    requires es != []
    ensures es[0] in es && forall e :: e in es <==> e == es[0] || e in es[1..]
  {
    assert es == [es[0]] + es[1..];
  }

  /** Once decided, a record is not moved by events of the same time that agree. */
  lemma {:induction false} SettleDecided(r: Rec, es: seq<PeerEvent>, retention: int, w: PeerEvent)
    requires Observed(r.now) == Verdict(w, retention)
    requires forall e :: e in es && Concerns(r, e) ==>
               e.at == w.at && (e.kind.Degraded? || Verdict(e, retention) == Verdict(w, retention))
    ensures Observed(Settle(r, es, retention).now) == Verdict(w, retention)
    ensures Settle(r, es, retention).(now := r.now) == r
    decreases |es|
  {
    if es != [] {
      TailMembers(es);
      SettleDecided(Touch(r, es[0], retention), es[1..], retention, w);
    }
  }

  /** The latest event that concerns the record has the last word, wherever it
      stands in the order of application, if it is a loss, or a READY for a record
      that is not deregistered, and no other of that time disagrees. */
  lemma {:induction false} LatestDecides(r: Rec, es: seq<PeerEvent>, retention: int, w: PeerEvent)
    requires RecOk(r) && Latest(r, es, w) && Final(r.now, w) && Agreed(r, es, retention, w)
    ensures Observed(Settle(r, es, retention).now) == Verdict(w, retention)
    ensures Settle(r, es, retention).(now := r.now) == r
    decreases |es|
  {
    var r1, rest := Touch(r, es[0], retention), es[1..];
    TouchOk(r, es[0], retention);
    TailMembers(es);
    forall f | f in rest && Concerns(r1, f) ensures Concerns(r, f) && f.at <= w.at {}
    if w in rest {
      forall f | Latest(r1, rest, f) ensures Latest(r, es, f) { assert f.at == w.at; }
      LatestDecides(r1, rest, retention, w);
    } else {
      forall f | f in rest && Concerns(r1, f)
        ensures f.at == w.at && (f.kind.Degraded? || Verdict(f, retention) == Verdict(w, retention))
      {
        assert Latest(r, es, f);
      }
      SettleDecided(r1, rest, retention, w);
    }
  }

  /** Whether an event is mute does not depend on last_seen and changed_at. */
  lemma MuteAlike(s: Standing, s': Standing, e: PeerEvent, retention: int)
    requires Observed(s').(lastSeen := 0) == Observed(s).(lastSeen := 0)
    ensures Mute(s', e, retention) <==> Mute(s, e, retention)
  {
  }

  /** Events that are all mute leave the record with the time of the latest. */
  lemma {:induction false} SettleMute(r: Rec, es: seq<PeerEvent>, retention: int, t: int)
    requires forall e :: e in es && Concerns(r, e) ==> Mute(r.now, e, retention) && e.at <= t
    requires t == r.now.lastSeen || exists w :: w in es && Concerns(r, w) && w.at == t
    ensures Observed(Settle(r, es, retention).now) == Observed(r.now).(lastSeen := t)
    decreases |es|
  {
    if es != [] {
      var r1, rest := Touch(r, es[0], retention), es[1..];
      TailMembers(es);
      forall e | e in rest && Concerns(r1, e) ensures Mute(r1.now, e, retention) && e.at <= t {
        assert Concerns(r, e);
        MuteAlike(r.now, r1.now, e, retention);
      }
      if t != r1.now.lastSeen {
        var w :| w in es && Concerns(r, w) && w.at == t;
        assert w in rest && Concerns(r1, w);
      }
      SettleMute(r1, rest, retention, t);
    }
  }

  lemma {:induction false} LatestExists(r: Rec, es: seq<PeerEvent>)
    requires exists e :: e in es && Concerns(r, e)
    ensures exists w :: Latest(r, es, w)
    decreases |es|
  {
    var rest := es[1..];
    TailMembers(es);
    if exists e :: e in rest && Concerns(r, e) {
      LatestExists(r, rest);
      var w :| Latest(r, rest, w);
      var v := if Concerns(r, es[0]) && es[0].at > w.at then es[0] else w;
      assert Latest(r, es, v);
    } else {
      var w :| w in es && Concerns(r, w);
      assert Latest(r, es, w);
    }
  }

  lemma SameEvents(es: seq<PeerEvent>, es': seq<PeerEvent>)
    requires multiset(es) == multiset(es')
    ensures forall e :: e in es <==> e in es'
  {
    assert forall e :: e in es <==> e in multiset(es);
    assert forall e :: e in es' <==> e in multiset(es');
  }

  lemma {:induction false} SettleRecOk(r: Rec, es: seq<PeerEvent>, retention: int)
    requires RecOk(r)
    ensures RecOk(Settle(r, es, retention))
    decreases |es|
  {
    if es != [] {
      TouchOk(r, es[0], retention);
      SettleRecOk(Touch(r, es[0], retention), es[1..], retention);
    }
  }

  /** Two orders of the same events settle a record in the same way when the
      latest events that concern it decide it and agree, or none moves it. */
  lemma OrderIrrelevant(r: Rec, es: seq<PeerEvent>, es': seq<PeerEvent>, retention: int)
    requires RecOk(r) && multiset(es) == multiset(es') && Orderly(r, es, retention)
    ensures Observed(Settle(r, es, retention).now) == Observed(Settle(r, es', retention).now)
    ensures RecOk(Settle(r, es, retention))
  {
    SameEvents(es, es');
    SettleRecOk(r, es, retention);
    if w :| Latest(r, es, w) && Final(r.now, w) && Agreed(r, es, retention, w) {
      forall f | Latest(r, es', f) ensures Latest(r, es, f) {}
      LatestDecides(r, es, retention, w);
      LatestDecides(r, es', retention, w);
    } else if exists e :: e in es && Concerns(r, e) {
      LatestExists(r, es);
      var w :| Latest(r, es, w);
      SettleMute(r, es, retention, w.at);
      SettleMute(r, es', retention, w.at);
    } else {
      SettleMute(r, es, retention, r.now.lastSeen);
      SettleMute(r, es', retention, r.now.lastSeen);
    }
  }

  // ---------------------------------------------------------------- orders that matter

  function PlaceOf(es: seq<PeerEvent>, e: PeerEvent): (i: nat)
    requires e in es
    ensures i < |es| && es[i] == e
  {
    if es[0] == e then 0 else 1 + PlaceOf(es[1..], e)
  }

  /** The events less one occurrence of `e`. */
  function Minus(es: seq<PeerEvent>, e: PeerEvent): seq<PeerEvent>
    requires e in es
  {
    es[..PlaceOf(es, e)] + es[PlaceOf(es, e) + 1..]
  }

  lemma MinusOne(es: seq<PeerEvent>, e: PeerEvent)
    requires e in es
    ensures multiset(es) == multiset(Minus(es, e)) + multiset{e}
    ensures forall f :: f in es && f != e ==> f in Minus(es, e)
    ensures forall f :: f in Minus(es, e) ==> f in es
  {
    var i := PlaceOf(es, e);
    assert es == es[..i] + [e] + es[i + 1..];
    assert forall f :: f in es && f != e ==> f in multiset(Minus(es, e));
  }

  lemma MinusTwo(es: seq<PeerEvent>, e: PeerEvent, f: PeerEvent) returns (rest: seq<PeerEvent>)
    requires e in es && f in es && e != f
    ensures multiset(rest + [e, f]) == multiset(rest + [f, e]) == multiset(es)
    ensures forall g :: g in rest ==> g in es
  {
    MinusOne(es, e);
    MinusOne(Minus(es, e), f);
    rest := Minus(Minus(es, e), f);
  }

  lemma {:induction false} SettleAppend(r: Rec, a: seq<PeerEvent>, b: seq<PeerEvent>, retention: int)
    ensures Settle(r, a + b, retention) == Settle(Settle(r, a, retention), b, retention)
    decreases |a|
  {
    if a == [] {
      assert a + b == b;
    } else {
      assert (a + b)[1..] == a[1..] + b;
      SettleAppend(Touch(r, a[0], retention), a[1..], b, retention);
    }
  }

  /** A record last seen no later than `t` is still so after events up to `t`. */
  lemma {:induction false} SettleSeen(r: Rec, es: seq<PeerEvent>, retention: int, t: int)
    requires r.now.lastSeen <= t && forall e :: e in es && Concerns(r, e) ==> e.at <= t
    ensures Settle(r, es, retention).now.lastSeen <= t && Settle(r, es, retention).(now := r.now) == r
    decreases |es|
  {
    if es != [] {
      TailMembers(es);
      SettleSeen(Touch(r, es[0], retention), es[1..], retention, t);
    }
  }

  /** Of two events of one time that disagree, the one applied last is believed. */
  lemma LastOfTwo(r: Rec, a: PeerEvent, b: PeerEvent, retention: int)
    requires Concerns(r, a) && Concerns(r, b) && a.at == b.at && !a.kind.Degraded? && !b.kind.Degraded?
    requires Verdict(a, retention) != Verdict(b, retention)
    ensures Observed(Settle(r, [a, b], retention).now) == Verdict(b, retention)
  {
    SettleTwo(r, a, b, retention);
  }

  /** The latest events disagree. */
  lemma DisagreeingOrders(r: Rec, es: seq<PeerEvent>, retention: int, w: PeerEvent, f: PeerEvent)
    returns (a: seq<PeerEvent>, b: seq<PeerEvent>)
    requires Latest(r, es, w) && Latest(r, es, f) && !w.kind.Degraded? && !f.kind.Degraded?
    requires Verdict(f, retention) != Verdict(w, retention)
    ensures multiset(a) == multiset(es) == multiset(b)
    ensures Observed(Settle(r, a, retention).now) != Observed(Settle(r, b, retention).now)
  {
    var rest := MinusTwo(es, w, f);
    a, b := rest + [f, w], rest + [w, f];
    SettleAppend(r, rest, [f, w], retention);
    SettleAppend(r, rest, [w, f], retention);
    SettleSeen(r, rest, retention, w.at);
    LastOfTwo(Settle(r, rest, retention), f, w, retention);
    LastOfTwo(Settle(r, rest, retention), w, f, retention);
  }

  /** A record that is not deregistered is not made so by events. */
  lemma {:induction false} StaysRegistered(r: Rec, es: seq<PeerEvent>, retention: int)
    requires !r.now.state.Deregistered?
    ensures !Settle(r, es, retention).now.state.Deregistered?
    decreases |es|
  {
    if es != [] { StaysRegistered(Touch(r, es[0], retention), es[1..], retention); }
  }

  /** A latest event that decides nothing, applied first, keeps the record. */
  lemma LatestFirst(r: Rec, rest: seq<PeerEvent>, retention: int, w: PeerEvent)
    requires Latest(r, [w] + rest, w) && forall f :: Latest(r, [w] + rest, f) ==> !Final(r.now, f)
    ensures Observed(Settle(r, [w] + rest, retention).now) == Observed(r.now).(lastSeen := w.at)
  {
    var es, r1 := [w] + rest, Touch(r, w, retention);
    assert es[1..] == rest && forall e :: e in rest ==> e in es;
    forall e | e in rest && Concerns(r1, e) ensures Mute(r1.now, e, retention) && e.at <= w.at {
      assert Latest(r, es, e);
      MuteAlike(r.now, r1.now, e, retention);
    }
    SettleMute(r1, rest, retention, w.at);
  }

  /** Applied behind an event that moves the record, it does not. */
  lemma LatestSecond(r: Rec, rest: seq<PeerEvent>, retention: int, v: PeerEvent, w: PeerEvent)
    requires Latest(r, [v] + ([w] + rest), w) && forall f :: Latest(r, [v] + ([w] + rest), f) ==> !Final(r.now, f)
    requires Concerns(r, v) && !Mute(r.now, v, retention)
    ensures Observed(Settle(r, [v] + ([w] + rest), retention).now) != Observed(r.now).(lastSeen := w.at)
  {
    var es, r1 := [v] + ([w] + rest), Touch(r, v, retention);
    assert es[1..] == [w] + rest && ([w] + rest)[1..] == rest;
    assert v in es && forall e :: e in rest ==> e in es;
    if r.now.state.Deregistered? {
      StaysRegistered(r1, [w] + rest, retention);
    } else {
      var r2 := Touch(r1, w, retention);
      forall e | e in rest && Concerns(r2, e) ensures Mute(r2.now, e, retention) && e.at <= w.at {
        assert Latest(r, es, e);
      }
      SettleMute(r2, rest, retention, w.at);
    }
  }

  /** Unless the events are orderly, two orders of them settle the record
      differently. */
  lemma TwoOrders(r: Rec, es: seq<PeerEvent>, retention: int) returns (a: seq<PeerEvent>, b: seq<PeerEvent>)
    requires !Orderly(r, es, retention)
    ensures multiset(a) == multiset(es) == multiset(b)
    ensures Observed(Settle(r, a, retention).now) != Observed(Settle(r, b, retention).now)
  {
    if w :| Latest(r, es, w) && Final(r.now, w) {
      var f :| Latest(r, es, f) && !f.kind.Degraded? && Verdict(f, retention) != Verdict(w, retention);
      a, b := DisagreeingOrders(r, es, retention, w, f);
    } else {
      LatestExists(r, es);
      var w :| Latest(r, es, w);
      var v :| v in es && Concerns(r, v) && !Mute(r.now, v, retention);
      a, b := UndecidedOrders(r, es, retention, w, v);
    }
  }

  /** The latest events decide nothing, and an earlier one would move the record. */
  lemma UndecidedOrders(r: Rec, es: seq<PeerEvent>, retention: int, w: PeerEvent, v: PeerEvent)
    returns (a: seq<PeerEvent>, b: seq<PeerEvent>)
    requires Latest(r, es, w) && forall f :: Latest(r, es, f) ==> !Final(r.now, f)
    requires v in es && Concerns(r, v) && !Mute(r.now, v, retention)
    ensures multiset(a) == multiset(es) == multiset(b)
    ensures Observed(Settle(r, a, retention).now) != Observed(Settle(r, b, retention).now)
  {
    var rest := Minus(es, w);
    MinusOne(es, w);
    var others := Minus(rest, v);
    MinusOne(rest, v);
    a, b := [w] + rest, [v] + ([w] + others);
    SameEvents(es, a);
    SameEvents(es, b);
    LatestFirst(r, rest, retention, w);
    LatestSecond(r, others, retention, v, w);
  }

  /** For every record and every bag of events: all orders of application settle
      the record in the same way if and only if the latest events that concern it
      decide it and agree, or none moves it. */
  lemma OrderIrrelevantIff(r: Rec, es: seq<PeerEvent>, retention: int)
    requires RecOk(r)
    ensures (forall es' :: multiset(es') == multiset(es) ==>
               Observed(Settle(r, es', retention).now) == Observed(Settle(r, es, retention).now))
            <==> Orderly(r, es, retention)
  {
    if Orderly(r, es, retention) {
      forall es' | multiset(es') == multiset(es)
        ensures Observed(Settle(r, es', retention).now) == Observed(Settle(r, es, retention).now)
      {
        OrderIrrelevant(r, es, es', retention);
      }
    } else {
      var a, b := TwoOrders(r, es, retention);
    }
  }

  function SettleAll(rs: seq<Rec>, es: seq<PeerEvent>, retention: int): seq<Rec>
    decreases |es|
  {
    if es == [] then rs else SettleAll(TouchAll(rs, es[0], retention), es[1..], retention)
  }

  lemma {:induction false} GetSettled(rs: seq<Rec>, es: seq<PeerEvent>, retention: int, sid: string)
    requires Distinct(rs)
    ensures Get(SettleAll(rs, es, retention), sid)
         == match Get(rs, sid) case Some(r) => Some(Settle(r, es, retention)) case None => None
    decreases |es|
  {
    if es != [] {
      GetTouched(rs, es[0], retention, sid);
      GetSettled(TouchAll(rs, es[0], retention), es[1..], retention, sid);
    }
  }

  /** The whole directory converges: whichever order the event threads run in,
      a service ends in the same standing if its events are orderly. */
  lemma DirectoryConverges(d: Dir, es: seq<PeerEvent>, es': seq<PeerEvent>, sid: string)
    requires Inv(d) && Get(d.records, sid).Some? && multiset(es) == multiset(es')
    requires Orderly(Get(d.records, sid).value, es, d.retention)
    ensures var a := Get(SettleAll(d.records, es, d.retention), sid);
            var b := Get(SettleAll(d.records, es', d.retention), sid);
            a.Some? && b.Some? && Observed(a.value.now) == Observed(b.value.now)
  {
    var r := Get(d.records, sid).value;
    assert d.records[IndexOf(d.records, sid)] in d.records;
    GetSettled(d.records, es, d.retention, sid);
    GetSettled(d.records, es', d.retention, sid);
    OrderIrrelevant(r, es, es', d.retention);
  }

  lemma SettleTwo(r: Rec, a: PeerEvent, b: PeerEvent, retention: int)
    ensures Settle(r, [a, b], retention) == Touch(Touch(r, a, retention), b, retention)
  {
    var es := [a, b];
    assert es[1..] == [b];
    var x := Touch(r, a, retention);
    assert Settle(r, es, retention) == Settle(x, es[1..], retention);
    assert Settle(x, [b], retention) == Settle(Touch(x, b, retention), [], retention);
  }

  /** A deregistered record does depend on the order: LOST makes it eligible for
      a revival that a READY applied first cannot give. */
  lemma DeregisteredDiverges(r: Rec, retention: int)
    requires r.now.state.Deregistered?
    ensures var t := r.now.lastSeen;
            var lost, ready := PeerEvent(Lost, r.peer, r.runtime, "", t + 1),
                               PeerEvent(Ready, r.peer, r.runtime, "", t + 2);
            && Settle(r, [lost, ready], retention).now.state == Up
            && Settle(r, [ready, lost], retention).now.state == Deregistered
  {
    var t := r.now.lastSeen;
    var lost, ready := PeerEvent(Lost, r.peer, r.runtime, "", t + 1), PeerEvent(Ready, r.peer, r.runtime, "", t + 2);
    SettleTwo(r, lost, ready, retention);
    SettleTwo(r, ready, lost, retention);
  }

  /** So does a record that is UP: a DEGRADED applied first fences a LOST that
      came before it, for good. */
  lemma DegradedDiverges(r: Rec, retention: int)
    requires r.now.state.Up?
    ensures var t := r.now.lastSeen;
            var lost := PeerEvent(Lost, r.peer, r.runtime, "", t + 1);
            var degraded := PeerEvent(Degraded, r.peer, r.runtime, "", t + 2);
            && Settle(r, [lost, degraded], retention).now.state == Down
            && Settle(r, [degraded, lost], retention).now.state == Up
  {
    var t := r.now.lastSeen;
    var lost := PeerEvent(Lost, r.peer, r.runtime, "", t + 1);
    var degraded := PeerEvent(Degraded, r.peer, r.runtime, "", t + 2);
    SettleTwo(r, lost, degraded, retention);
    SettleTwo(r, degraded, lost, retention);
  }

  // ---------------------------------------------------------------- filters on the service type

  /** As `Follows`, with any service_type filter. */
  predicate Paired(u: Subscriber) {
    Follows(u.(up := u.up.(stype := ""), down := u.down.(stype := ""))) && u.up.stype == u.down.stype
  }

  /** The run that loses a typed subscriber: the service re-registers under
      another type while it is UP, then deregisters. */
  function DriftSid(u: Subscriber): string { if u.up.sid != "" then u.up.sid else "svc" }

  function DriftStart(u: Subscriber): Dir { Dir(0, [], [u.up, u.down], [], [], []) }

  function DriftRequest(u: Subscriber, stype: string): Request {
    Request(DriftSid(u), "", Some(stype), "runtime", "peer", "", "", 1)
  }

  function DriftSteps(u: Subscriber): seq<Step> {
    [Register(DriftRequest(u, u.up.stype), 1), Publish, Register(DriftRequest(u, u.up.stype + "2"), 2),
     Deregister(DriftSid(u), "runtime", 1, 3), Publish]
  }

  /** After the second registration the subscriber has heard one CONNECTED. */
  function DriftMiddle(u: Subscriber): Dir {
    var r1 := NewRecord(DriftRequest(u, u.up.stype), 1, 1);
    var r2 := NewRecord(DriftRequest(u, u.up.stype + "2"), 1, 2);
    Dir(0, [r2], [u.up, u.down], [], [Connected(r1)], [Delivery(u.up.id, Connected(r1))])
  }

  function DriftEnd(u: Subscriber): Dir {
    var r2 := Retired(NewRecord(DriftRequest(u, u.up.stype + "2"), 1, 2), 3, 0);
    DriftMiddle(u).(records := [r2], published := DriftMiddle(u).published + [Disconnected(r2, "deregistered")])
  }

  lemma DeliveriesOfPair(u: Subscriber, v: ServiceEvent)
    ensures Deliveries([u.up, u.down], v)
         == (if Matches(u.up, v) then [Delivery(u.up.id, v)] else [])
           + (if Matches(u.down, v) then [Delivery(u.down.id, v)] else [])
  {
    assert [u.up, u.down][1..] == [u.down];
    assert Deliveries([u.down], v) == (if Matches(u.down, v) then [Delivery(u.down.id, v)] else []) + Deliveries([], v);
  }

  lemma DriftFirst(u: Subscriber)
    requires Paired(u) && u.up.stype != ""
    ensures var d0, ts := DriftStart(u), DriftSteps(u);
            && Enabled(d0, ts[0]) && Enabled(Next(d0, ts[0]), ts[1])
            && Enabled(Next(Next(d0, ts[0]), ts[1]), ts[2])
            && Next(Next(Next(d0, ts[0]), ts[1]), ts[2]) == DriftMiddle(u)
  {
    var d0, ts := DriftStart(u), DriftSteps(u);
    var q1 := DriftRequest(u, u.up.stype);
    var r1 := NewRecord(q1, 1, 1);
    var d1 := Next(d0, ts[0]);
    assert d1 == d0.(records := [r1], pending := [Connected(r1)]);
    DeliveriesOfPair(u, Connected(r1));
    var d2 := Next(d1, ts[1]);
    assert d2 == d0.(records := [r1], published := [Connected(r1)], log := [Delivery(u.up.id, Connected(r1))]);
    assert IsUp([r1], r1.sid);
  }

  lemma DriftSecond(u: Subscriber)
    requires Paired(u) && u.up.stype != ""
    ensures var d3, ts := DriftMiddle(u), DriftSteps(u);
            Enabled(d3, ts[3]) && Enabled(Next(d3, ts[3]), ts[4]) && Next(Next(d3, ts[3]), ts[4]) == DriftEnd(u)
  {
    var d3, ts := DriftMiddle(u), DriftSteps(u);
    var r2 := NewRecord(DriftRequest(u, u.up.stype + "2"), 1, 2);
    assert Get([r2], r2.sid) == Some(r2);
    var r3 := Retired(r2, 3, 0);
    var v := Disconnected(r3, "deregistered");
    assert Next(d3, ts[3]) == d3.(records := [r3], pending := [v]);
    DeliveriesOfPair(u, v);
    assert u.up.stype + "2" != u.up.stype;
    assert d3.log + [] == d3.log;
  }

  lemma {:induction false} RunSplit(d: Dir, a: seq<Step>, m: Dir, b: seq<Step>, d': Dir)
    requires Run(d, a, m) && Run(m, b, d')
    ensures Run(d, a + b, d')
    decreases |a|
  {
    if a == [] {
      assert a + b == b;
    } else {
      assert (a + b)[1..] == a[1..] + b;
      RunSplit(Next(d, a[0]), a[1..], m, b, d');
    }
  }

  lemma RunOne(d: Dir, t: Step)
    requires Enabled(d, t)
    ensures Run(d, [t], Next(d, t))
  {
    assert [t][1..] == [];
  }

  lemma DriftRuns(u: Subscriber)
    requires Paired(u) && u.up.stype != ""
    ensures Run(DriftStart(u), DriftSteps(u), DriftEnd(u))
  {
    DriftFirst(u);
    DriftSecond(u);
    var ts, d0, d3 := DriftSteps(u), DriftStart(u), DriftMiddle(u);
    var d1 := Next(d0, ts[0]);
    var d2 := Next(d1, ts[1]);
    var d4 := Next(d3, ts[3]);
    RunOne(d0, ts[0]); RunOne(d1, ts[1]); RunOne(d2, ts[2]); RunOne(d3, ts[3]); RunOne(d4, ts[4]);
    RunSplit(d0, [ts[0]], d1, [ts[1]], d2);
    RunSplit(d0, [ts[0]] + [ts[1]], d2, [ts[2]], d3);
    RunSplit(d0, [ts[0]] + [ts[1]] + [ts[2]], d3, [ts[3]], d4);
    RunSplit(d0, [ts[0]] + [ts[1]] + [ts[2]] + [ts[3]], d4, [ts[4]], DriftEnd(u));
    assert [ts[0]] + [ts[1]] + [ts[2]] + [ts[3]] + [ts[4]] == ts;
  }

  /** The subscriber's view is right in every run from the start. */
  ghost predicate AlwaysKnows(u: Subscriber) {
    forall d, steps, d', sid | Begins(d) && Run(d, steps, d') && Present(u, d.regs) && d'.pending == []
                             && (forall t :: t in steps ==> Spares(u, t)) && Listens(u, sid) ::
      Believes(Heard(d'.log, u), sid) == IsUp(d'.records, sid)
  }

  /** A pair of registrations keeps an exact view exactly when it does not filter
      on the service type, which a live service may change without an event. */
  lemma KnowsIffUntyped(u: Subscriber)
    requires Paired(u)
    ensures AlwaysKnows(u) <==> u.up.stype == ""
  {
    if u.up.stype == "" {
      forall d, steps, d', sid | Begins(d) && Run(d, steps, d') && Present(u, d.regs) && d'.pending == []
                               && (forall t :: t in steps ==> Spares(u, t)) && Listens(u, sid)
        ensures Believes(Heard(d'.log, u), sid) == IsUp(d'.records, sid)
      {
        SubscriberKnows(d, steps, d', u, sid);
      }
    } else {
      DriftRuns(u);
      var e := DriftEnd(u);
      assert e.log[1..] == [];
      assert Heard(e.log, u) == [e.log[0].event];
      assert Believes(Heard(e.log, u), DriftSid(u));
      assert !IsUp(e.records, DriftSid(u));
      assert u.up == DriftStart(u).regs[0] && u.down == DriftStart(u).regs[1];
      assert Begins(DriftStart(u)) && Present(u, DriftStart(u).regs) && e.pending == [];
      assert forall t :: t in DriftSteps(u) ==> Spares(u, t);
      assert Listens(u, DriftSid(u));
    }
  }
}

/**
  What each request does to the directory, told on the records, registrations and
  notices themselves: who is admitted and with which generation, what a peer event
  changes in a record, who hears of it, and when a record may be purged.
 */
module DirectoryEffects {
  import opened Common
  import opened Directory

  // ---------------------------------------------------------------- registration

  /** The id a request names its service by. */
  function Named(q: Request): string {
    if q.sid == "" then q.name else q.sid
  }

  /** Ids and bindings are all given. */
  predicate Complete(q: Request) {
    (q.sid != "" || q.name != "") && q.runtime != "" && q.peer != "" && q.bindings > 0
  }

  /** The service is UP with another runtime. */
  predicate Taken(rs: seq<Rec>, q: Request) {
    exists r :: r in rs && r.sid == Named(q) && r.now.state == Up && r.runtime != q.runtime
  }

  lemma Found(rs: seq<Rec>, sid: string)
    ensures Get(rs, sid).Some? <==> exists r :: r in rs && r.sid == sid
    ensures Get(rs, sid).Some? ==> Get(rs, sid).value in rs && Get(rs, sid).value.sid == sid
    ensures Distinct(rs) ==> forall r :: r in rs && r.sid == sid ==> Get(rs, sid) == Some(r)
  {
    if Distinct(rs) {
      forall r | r in rs && r.sid == sid ensures Get(rs, sid) == Some(r) {
        var i :| 0 <= i < |rs| && rs[i] == r;
        IndexUnique(rs, i, sid);
      }
    }
  }

  /** A registration is admitted if and only if it is complete and its service is
      not UP with another runtime. A new service starts at generation 1, an UP one
      keeps its generation, and any other gets the next. */
  lemma AdmittedIff(rs: seq<Rec>, q: Request)
    requires Distinct(rs)
    ensures Admit(rs, q).Ok? <==> Complete(q) && !Taken(rs, q)
    ensures Admit(rs, q).Ok? && (forall r :: r in rs ==> r.sid != Named(q)) ==> Admit(rs, q).value == 1
    ensures forall r :: r in rs && r.sid == Named(q) && Admit(rs, q).Ok? ==>
              Admit(rs, q).value == if r.now.state == Up then r.generation else r.generation + 1
  {
    Found(rs, Named(q));
  }

  /** Why a registration is refused: the first of these that applies. */
  lemma RefusedFor(rs: seq<Rec>, q: Request)
    requires Distinct(rs) && Admit(rs, q).Err?
    ensures Admit(rs, q).error ==
            if q.sid == "" && q.name == "" then MissingServiceId
            else if q.runtime == "" || q.peer == "" then MissingPeerBinding
            else if Taken(rs, q) then LiveRuntime
            else MissingBindings
  {
    Found(rs, Named(q));
  }

  /** The record of `sid` is `r`, and every other is as it was. */
  ghost predicate Stores(rs: seq<Rec>, rs': seq<Rec>, r: Rec) {
    && r in rs'
    && (forall x :: x in rs' && x.sid == r.sid ==> x == r)
    && (forall x: Rec :: x.sid != r.sid ==> (x in rs' <==> x in rs))
    && |rs'| == |rs| + if exists x :: x in rs && x.sid == r.sid then 0 else 1
  }

  lemma PutStores(rs: seq<Rec>, r: Rec)
    requires Distinct(rs)
    ensures Stores(rs, Put(rs, r), r)
  {
    var out, i := Put(rs, r), IndexOf(rs, r.sid);
    GetPut(rs, r, r.sid);
    assert out[i] == r;
    forall x: Rec | x.sid != r.sid ensures x in out <==> x in rs {
      if x in rs {
        var j :| 0 <= j < |rs| && rs[j] == x;
        assert out[j] == x;
      }
    }
    forall x | x in out && x.sid == r.sid ensures x == r {
      var j :| 0 <= j < |out| && out[j] == x;
      IndexUnique(out, j, r.sid);
    }
  }

  /** What an admitted registration stores. */
  predicate Fits(q: Request, now: int, generation: int, r: Rec) {
    && r.sid == Named(q) && r.runtime == q.runtime && r.peer == q.peer && r.generation == generation
    && r.stype == (match q.stype case Some(t) => t case None => "defw.service")
    && r.endpoint == q.endpoint && r.details == q.details
    && r.now == Standing(Up, now, now, "", None)
  }

  /** An admitted registration stores its service UP, with the generation above,
      and tells subscribers exactly if it was not UP before; a refused one changes
      nothing. */
  lemma RegisterEffect(d: Dir, q: Request, now: int)
    requires Inv(d) && d.pending == []
    ensures var d' := DoRegister(d, q, now);
            && (Complete(q) && !Taken(d.records, q) ==>
                  exists r :: Fits(q, now, Admit(d.records, q).value, r) && Stores(d.records, d'.records, r)
                    && d' == d.(records := d'.records, pending := d'.pending)
                    && d'.pending == if exists x :: x in d.records && x.sid == r.sid && x.now.state == Up then []
                                     else [Connected(r)])
            && (!(Complete(q) && !Taken(d.records, q)) ==> d' == d)
  {
    AdmittedIff(d.records, q);
    if Complete(q) && !Taken(d.records, q) {
      var r := NewRecord(q, Admit(d.records, q).value, now);
      PutStores(d.records, r);
      Found(d.records, r.sid);
      assert Fits(q, now, Admit(d.records, q).value, r);
    }
  }

  /** A service that is down, timed out or deregistered comes back with the next
      generation, whichever runtime registers it, and its subscribers hear of it
      once. */
  lemma ReregisteredComesBack(d: Dir, q: Request, now: int, was: Rec)
    requires Inv(d) && d.pending == [] && Complete(q)
    requires was in d.records && was.sid == Named(q) && was.now.state != Up
    ensures var d' := DoRegister(d, q, now);
            exists r :: r in d'.records && r.sid == was.sid && r.runtime == q.runtime && r.now.state == Up
              && r.generation == was.generation + 1 && d'.pending == [Connected(r)]
  {
    Found(d.records, Named(q));
    AdmittedIff(d.records, q);
    RegisterEffect(d, q, now);
  }

  /** A deregistration retires exactly the record of that service, runtime and
      generation, keeps it for the retention time and tells subscribers; any other
      changes nothing. */
  lemma DeregisterEffect(d: Dir, sid: string, runtime: string, generation: int, now: int, r: Rec)
    requires Inv(d) && d.pending == [] && r in d.records && r.sid == sid
    ensures var d' := DoDeregister(d, sid, runtime, generation, now);
            var gone := r.(endpoint := "",
                           now := Standing(Deregistered, r.now.lastSeen, now, r.now.reason, Some(now + d.retention)));
            && (r.runtime == runtime && r.generation == generation ==>
                  && Stores(d.records, d'.records, gone) && d'.pending == [Disconnected(gone, "deregistered")]
                  && d' == d.(records := d'.records, pending := d'.pending))
            && (r.runtime != runtime || r.generation != generation ==> d' == d)
  {
    Found(d.records, sid);
    PutStores(d.records, Retired(r, now, d.retention));
  }

  lemma DeregisterUnknown(d: Dir, sid: string, runtime: string, generation: int, now: int)
    requires forall r :: r in d.records ==> r.sid != sid
    ensures DoDeregister(d, sid, runtime, generation, now) == d
  {
    GetAbsent(d.records, sid);
  }

  // ---------------------------------------------------------------- peer events

  /** The event is about this record's peer and runtime, and is not older than what
      is known of it. */
  predicate Hits(r: Rec, e: PeerEvent) {
    e.peer == r.peer && (e.runtime == r.runtime || e.runtime == "") && e.at >= r.now.lastSeen
  }

  predicate Losing(e: PeerEvent) { e.kind == Lost || e.kind == Removed }

  predicate Reviving(r: Rec, e: PeerEvent) {
    e.kind == Ready && (r.now.state == Down || r.now.state == TimedOut)
  }

  function Why(e: PeerEvent): string {
    if e.reason == "" then "peer-removed" else e.reason
  }

  /** What becomes of a record. */
  predicate Becomes(r: Rec, e: PeerEvent, retention: int, r': Rec) {
    && r'.(now := r.now) == r
    && r'.now == (
         if !Hits(r, e) then r.now
         else if Losing(e) then
           Standing(if Why(e) == "heartbeat-timeout" then TimedOut else Down, e.at, e.at, Why(e),
                    Some(e.at + retention))
         else if Reviving(r, e) then Standing(Up, e.at, e.at, "", None)
         else r.now.(lastSeen := e.at))
  }

  /** A notice is raised for exactly the records that go down or come back, and
      shows the record as it then is. */
  predicate Announces(r: Rec, r': Rec, e: PeerEvent, v: ServiceEvent) {
    && Hits(r, e)
    && ((Losing(e) && v == Disconnected(r', Why(e))) || (Reviving(r, e) && v == Connected(r')))
  }

  lemma NoticeIff(r: Rec, e: PeerEvent, retention: int, v: ServiceEvent)
    ensures v in Notice(r, e, retention) <==> Announces(r, Touch(r, e, retention), e, v)
  {
  }

  lemma {:induction false} NoticesIff(rs: seq<Rec>, e: PeerEvent, retention: int, v: ServiceEvent)
    ensures v in NoticeAll(rs, e, retention) <==>
            exists i :: 0 <= i < |rs| && Announces(rs[i], Touch(rs[i], e, retention), e, v)
    decreases |rs|
  {
    if rs != [] {
      var rest := rs[1..];
      NoticeIff(rs[0], e, retention, v);
      NoticesIff(rest, e, retention, v);
      if i :| 0 <= i < |rest| && Announces(rest[i], Touch(rest[i], e, retention), e, v) {
        assert rs[i + 1] == rest[i];
      }
      if i :| 0 < i < |rs| && Announces(rs[i], Touch(rs[i], e, retention), e, v) {
        assert rest[i - 1] == rs[i];
      }
    }
  }

  /** A peer event, record by record, notice by notice, registration by
      registration. */
  lemma PeerEventEffect(d: Dir, e: PeerEvent)
    ensures var d' := DoPeer(d, e);
            && |d'.records| == |d.records|
            && (forall i :: 0 <= i < |d.records| ==> Becomes(d.records[i], e, d.retention, d'.records[i]))
            && (forall v :: v in d'.pending <==>
                  exists i :: 0 <= i < |d.records| && Announces(d.records[i], d'.records[i], e, v))
            && (forall g :: g in d'.regs <==>
                            g in d.regs && !(Losing(e) && e.runtime != "" && g.subscriber == e.runtime))
            && d'.published == d.published && d'.log == d.log && d'.retention == d.retention
  {
    var d' := DoPeer(d, e);
    forall v ensures v in d'.pending <==>
      exists i :: 0 <= i < |d.records| && Announces(d.records[i], d'.records[i], e, v)
    {
      NoticesIff(d.records, e, d.retention, v);
      if i :| 0 <= i < |d.records| && Announces(d.records[i], Touch(d.records[i], e, d.retention), e, v) {
        assert d'.records[i] == Touch(d.records[i], e, d.retention);
      }
    }
  }

  // ---------------------------------------------------------------- retention

  /** A purge keeps a record exactly until its deadline, and one without a deadline
      for ever. */
  lemma PurgeIff(rs: seq<Rec>, now: int, r: Rec)
    ensures r in PurgeAll(rs, now) <==>
            r in rs && (match r.now.deadline case None => true case Some(t) => t == 0 || now < t)
  {
  }

  /** So a service that was lost or deregistered at time t stays for the retention
      time and goes with the first purge after it. */
  lemma RetainedFor(d: Dir, e: PeerEvent, i: nat, now: int)
    requires i < |d.records| && Hits(d.records[i], e) && Losing(e) && e.at + d.retention != 0
    ensures var r := DoPeer(d, e).records[i];
            r in PurgeAll(DoPeer(d, e).records, now) <==> now < e.at + d.retention
  {
    PeerEventEffect(d, e);
    PurgeIff(DoPeer(d, e).records, now, DoPeer(d, e).records[i]);
  }

  // ---------------------------------------------------------------- deliveries

  /** The registration is for this kind of event, and its filters let it through. */
  predicate Wants(g: Registration, v: ServiceEvent) {
    && (if g.connected then v.Connected? else v.Disconnected?)
    && (g.sid == v.rec.sid || g.sid == "")
    && (g.stype == v.rec.stype || g.stype == "")
  }

  /** A publication goes to exactly the registrations that want it. */
  lemma {:induction false} DeliveredIff(gs: seq<Registration>, v: ServiceEvent, x: Delivery)
    ensures x in Deliveries(gs, v) <==> exists g :: g in gs && Wants(g, v) && x == Delivery(g.id, v)
    decreases |gs|
  {
    if gs != [] {
      assert gs == [gs[0]] + gs[1..];
      DeliveredIff(gs[1..], v, x);
    }
  }

  /** Each of them hears it once. */
  lemma {:induction false} DeliveredOnce(gs: seq<Registration>, v: ServiceEvent)
    requires IdsOk(gs)
    ensures var ds := Deliveries(gs, v); forall i, j :: 0 <= i < j < |ds| ==> ds[i].to != ds[j].to
    decreases |gs|
  {
    if gs != [] {
      var rest := gs[1..];
      assert forall i :: 0 <= i < |rest| ==> rest[i] == gs[i + 1];
      DeliveredOnce(rest, v);
      var tail := Deliveries(rest, v);
      forall k | 0 <= k < |tail| ensures tail[k].to != gs[0].id {
        DeliveredIff(rest, v, tail[k]);
      }
      var ds := Deliveries(gs, v);
      if Matches(gs[0], v) {
        assert ds == [Delivery(gs[0].id, v)] + tail;
      } else {
        assert ds == tail;
      }
    }
  }

  /** No request waits for ever: publishing the collected notices, one after the
      other and in order, leads to a directory with the same records in which every
      one is served. */
  lemma {:induction false} AlwaysServed(d: Dir, t: Step) returns (steps: seq<Step>, d': Dir)
    requires !t.Publish?
    requires t.Subscribe? ==> t.g.subscriber != "" && t.g.id !in (set g | g in d.regs :: g.id)
    ensures Run(d, steps, d') && Enabled(d', t) && (forall x :: x in steps ==> x.Publish?)
    ensures d'.records == d.records && d'.regs == d.regs && d'.pending == []
    ensures d'.published == d.published + d.pending
    decreases |d.pending|
  {
    if d.pending == [] {
      steps, d' := [], d;
    } else {
      var rest;
      rest, d' := AlwaysServed(Next(d, Publish), t);
      steps := [Publish] + rest;
      assert steps[1..] == rest;
    }
  }
}

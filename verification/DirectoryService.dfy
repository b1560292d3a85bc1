/**
  The directory object as the source runs it: methods that hold the transition
  lock for their whole length, walk the record and registration tables in place,
  and publish what they owe before they return.
 */
module DirectoryService {
  import opened Common
  import opened Directory

  /** The state once everything the current operation owes has been published. */
  function Drain(d: Dir): (r: Dir)
    ensures r.pending == [] && r.records == d.records && r.regs == d.regs
    ensures r.published == d.published + d.pending
    decreases |d.pending|
  {
    if d.pending == [] then d else Drain(DoPublish(d))
  }

  lemma {:induction false} DropPush(gs: seq<Registration>, g: Registration, runtime: string)
    ensures DropSubscriber(gs + [g], runtime)
         == DropSubscriber(gs, runtime) + if g.subscriber == runtime then [] else [g]
    decreases |gs|
  {
    if gs != [] {
      assert (gs + [g])[1..] == gs[1..] + [g];
      DropPush(gs[1..], g, runtime);
    }
  }

  lemma {:induction false} PurgePush(rs: seq<Rec>, r: Rec, now: int)
    ensures PurgeAll(rs + [r], now) == PurgeAll(rs, now) + if Expired(r, now) then [] else [r]
    decreases |rs|
  {
    if rs != [] {
      assert (rs + [r])[1..] == rs[1..] + [r];
      PurgePush(rs[1..], r, now);
    }
  }

  lemma {:induction false} NoticePush(rs: seq<Rec>, r: Rec, e: PeerEvent, retention: int)
    ensures NoticeAll(rs + [r], e, retention) == NoticeAll(rs, e, retention) + Notice(r, e, retention)
    decreases |rs|
  {
    if rs != [] {
      assert (rs + [r])[1..] == rs[1..] + [r];
      NoticePush(rs[1..], r, e, retention);
    } else {
      assert rs + [r] == [r] && [r][1..] == [];
    }
  }

  class Service {
    const retention: int
    var records: seq<Rec>
    var regs: seq<Registration>
    var published: seq<ServiceEvent>
    var log: seq<Delivery>

    constructor (retention: int)
      ensures State() == Dir(retention, [], [], [], [], [])
    {
      this.retention := retention;
      records, regs, published, log := [], [], [], [];
    }

    function State(): Dir
      reads this
    {
      Dir(retention, records, regs, [], published, log)
    }

    method Find(sid: string) returns (i: nat)
      ensures i == IndexOf(records, sid)
    {
      i := 0;
      while i < |records| && records[i].sid != sid
        invariant 0 <= i <= |records|
        invariant forall j :: 0 <= j < i ==> records[j].sid != sid
      {
        i := i + 1;
      }
    }

    /** Put one event to every matching registration. */
    method PublishEvent(v: ServiceEvent)
      modifies `published, `log
      ensures published == old(published) + [v]
      ensures log == old(log) + Deliveries(regs, v)
    {
      published := published + [v];
      var i := 0;
      ghost var before := log;
      while i < |regs|
        invariant 0 <= i <= |regs|
        invariant published == old(published) + [v]
        invariant log + Deliveries(regs[i..], v) == before + Deliveries(regs, v)
      {
        if Matches(regs[i], v) {
          log := log + [Delivery(regs[i].id, v)];
        }
        i := i + 1;
      }
    }

    method PublishAll(vs: seq<ServiceEvent>)
      modifies `published, `log
      ensures State() == Drain(old(State()).(pending := vs))
    {
      var i := 0;
      while i < |vs|
        invariant 0 <= i <= |vs|
        invariant Drain(State().(pending := vs[i..])) == Drain(old(State()).(pending := vs))
      {
        ghost var d := State().(pending := vs[i..]);
        PublishEvent(vs[i]);
        assert DoPublish(d) == State().(pending := vs[i + 1..]);
        i := i + 1;
      }
    }

    /** Fails without changing anything, or stores the record UP. */
    method RegisterService(q: Request, now: int) returns (r: Result<Rec, Error>)
      modifies `records, `published, `log
      ensures State() == Drain(DoRegister(old(State()), q, now))
      ensures r.Err? <==> Admit(old(records), q).Err?
      ensures r.Err? ==> State() == old(State())
      ensures r.Ok? ==> r.value == NewRecord(q, Admit(old(records), q).value, now)
    {
      var sid := if q.sid != "" then q.sid else q.name;
      if sid == "" { return Err(MissingServiceId); }
      if q.runtime == "" || q.peer == "" { return Err(MissingPeerBinding); }
      var i := Find(sid);
      var generation := 1;
      var becameActive := true;
      if i < |records| {
        if records[i].now.state.Up? {
          if records[i].runtime != q.runtime { return Err(LiveRuntime); }
          becameActive := false;
          generation := records[i].generation;
        } else {
          generation := records[i].generation + 1;
        }
      }
      if q.bindings == 0 { return Err(MissingBindings); }
      var registered := NewRecord(q, generation, now);
      if i < |records| {
        records := records[i := registered];
      } else {
        records := records + [registered];
      }
      if becameActive {
        PublishAll([Connected(registered)]);
      }
      return Ok(registered);
    }

    method DeregisterService(sid: string, runtime: string, generation: int, now: int) returns (r: Result<Rec, Error>)
      modifies `records, `published, `log
      ensures State() == Drain(DoDeregister(old(State()), sid, runtime, generation, now))
      ensures r.Ok? <==> MayDeregister(old(records), sid, runtime, generation)
      ensures r == Err(NotRegistered) <==> Get(old(records), sid).None?
    {
      var i := Find(sid);
      if i == |records| { return Err(NotRegistered); }
      if records[i].runtime != runtime || records[i].generation != generation { return Err(Stale); }
      var record := Retired(records[i], now, retention);
      records := records[i := record];
      PublishAll([Disconnected(record, "deregistered")]);
      return Ok(record);
    }

    /** Forget every subscription of a runtime that is gone. */
    method RemoveSubscriber(runtime: string)
      modifies `regs
      ensures regs == DropSubscriber(old(regs), runtime)
    {
      var all, kept := regs, [];
      for i := 0 to |all|
        invariant kept == DropSubscriber(all[..i], runtime)
      {
        DropPush(all[..i], all[i], runtime);
        assert all[..i + 1] == all[..i] + [all[i]];
        if all[i].subscriber != runtime {
          kept := kept + [all[i]];
        }
      }
      assert all[..|all|] == all;
      regs := kept;
    }

    /** Update the records an event concerns, in table order. */
    method TouchRecords(e: PeerEvent) returns (notifications: seq<ServiceEvent>)
      modifies `records
      ensures records == TouchAll(old(records), e, retention)
      ensures notifications == NoticeAll(old(records), e, retention)
    {
      notifications := [];
      ghost var was := records;
      for i := 0 to |records|
        invariant |records| == |was|
        invariant forall j :: i <= j < |was| ==> records[j] == was[j]
        invariant forall j :: 0 <= j < i ==> records[j] == Touch(was[j], e, retention)
        invariant notifications == NoticeAll(was[..i], e, retention)
      {
        NoticePush(was[..i], was[i], e, retention);
        assert was[..i + 1] == was[..i] + [was[i]];
        var record := records[i];
        if record.peer == e.peer && (e.runtime == "" || record.runtime == e.runtime) && record.now.lastSeen <= e.at {
          var before := record.now;
          record := record.(now := Moved(before, e, retention));
          records := records[i := record];
          if Loses(e) {
            notifications := notifications + [Disconnected(record, LossReason(e))];
          } else if Revives(before, e) {
            notifications := notifications + [Connected(record)];
          }
        }
      }
      assert was[..|was|] == was;
    }

    /** Walk the records, update those the event concerns, then publish. */
    method ApplyPeerEvent(e: PeerEvent)
      modifies `records, `regs, `published, `log
      ensures State() == Drain(DoPeer(old(State()), e))
    {
      if Loses(e) && e.runtime != "" {
        RemoveSubscriber(e.runtime);
      }
      var notifications := TouchRecords(e);
      PublishAll(notifications);
    }

    /** Delete every record whose retention is over. */
    method PurgeExpired(now: int)
      modifies `records
      ensures records == PurgeAll(old(records), now)
    {
      var all, kept := records, [];
      for i := 0 to |all|
        invariant kept == PurgeAll(all[..i], now)
      {
        PurgePush(all[..i], all[i], now);
        assert all[..i + 1] == all[..i] + [all[i]];
        if !Expired(all[i], now) {
          kept := kept + [all[i]];
        }
      }
      assert all[..|all|] == all;
      records := kept;
    }
  }
}

/**
  Request correlation: pending blocking requests wait in a table until the worker
  thread hands them a response, a peer loss or the shutdown.
 */
module Workers {
  datatype Kind = SendMsg | ConnectTo

  /** A blocking request: its uuid and, for a message, the peer it went to. */
  datatype Req = Req(kind: Kind, remote: string, blk: string)

  datatype Loss = Lost | Removed | Ready | Degraded

  datatype PeerEvent = PeerEvent(what: Loss, runtime: string, handle: string)

  /** What a request finds in its queue. */
  datatype Ev = Response(req: nat, body: nat) | PeerGone(e: PeerEvent) | Connected(status: int) | Stopped

  const ZeroUuid := "00000000-0000-0000-0000-000000000000"

  /** _work_request_targets_peer */
  predicate Targets(r: Req, e: PeerEvent) {
    && r.kind == SendMsg
    && (e.runtime != "" ==> r.remote == e.runtime)
    && (e.handle == "" || r.blk == "" || r.blk == ZeroUuid || r.blk == e.handle)
  }

  /** The request table, every queue ever handed out, requests withdrawn by
      their caller, and whether the worker has stopped. */
  datatype State = State(db: map<nat, Req>, inbox: map<nat, seq<Ev>>, withdrawn: set<nat>, down: bool)

  datatype Step =
    | Add(id: nat, r: Req)
    | Answer(req: nat, body: nat)
    | Peer(e: PeerEvent)
    | ConnDone(id: nat, status: int)
    | Withdraw(id: nat)
    | Shutdown

  const Init := State(map[], map[], {}, false)

  function Post(inbox: map<nat, seq<Ev>>, id: nat, e: Ev): map<nat, seq<Ev>> {
    if id in inbox then inbox[id := inbox[id] + [e]] else inbox
  }

  /** The event posted to every request of a set. */
  function PostAll(inbox: map<nat, seq<Ev>>, ids: set<nat>, e: Ev): map<nat, seq<Ev>> {
    map k | k in inbox :: if k in ids then inbox[k] + [e] else inbox[k]
  }

  function Failing(db: map<nat, Req>, e: PeerEvent): set<nat> {
    if e.what == Lost || e.what == Removed then set k | k in db && Targets(db[k], e) else {}
  }

  /** Request uuids are drawn fresh; a stopped worker handles nothing. */
  predicate Enabled(s: State, t: Step) {
    match t
    case Add(id, _) => id !in s.inbox
    case Withdraw(id) => true
    case _ => !s.down
  }

  function Next(s: State, t: Step): State {
    match t
    case Add(id, r) => s.(db := s.db[id := r], inbox := s.inbox[id := []])
    case Answer(req, body) =>
      if req in s.db then s.(db := s.db - {req}, inbox := Post(s.inbox, req, Response(req, body))) else s
    case Peer(e) => s.(db := s.db - Failing(s.db, e), inbox := PostAll(s.inbox, Failing(s.db, e), PeerGone(e)))
    case ConnDone(id, status) => if id in s.db then s.(inbox := Post(s.inbox, id, Connected(status))) else s
    case Withdraw(id) => s.(db := s.db - {id}, withdrawn := s.withdrawn + {id})
    case Shutdown => s.(inbox := PostAll(s.inbox, s.db.Keys, Stopped), down := true)
  }

  predicate Run(s: State, ts: seq<Step>)
    decreases |ts|
  {
    ts == [] || (Enabled(s, ts[0]) && Run(Next(s, ts[0]), ts[1..]))
  }

  function End(s: State, ts: seq<Step>): State
    decreases |ts|
  {
    if ts == [] then s else End(Next(s, ts[0]), ts[1..])
  }

  // ---------------------------------------------------------------- the invariant

  predicate Terminal(e: Ev) { !e.Connected? }

  function Terminals(q: seq<Ev>): nat {
    if q == [] then 0 else Terminals(q[..|q| - 1]) + if Terminal(q[|q| - 1]) then 1 else 0
  }

  lemma TerminalsPush(q: seq<Ev>, e: Ev)
    ensures Terminals(q + [e]) == Terminals(q) + if Terminal(e) then 1 else 0
  {
    assert (q + [e])[..|q|] == q;
  }

  /** A request still in the table of a running worker has had no terminal event;
      one that left it unwithdrawn has had exactly one. */
  predicate QueueOk(s: State, id: nat)
    requires id in s.inbox
  {
    && (id in s.db && !s.down ==> Terminals(s.inbox[id]) == 0)
    && (id !in s.db && id !in s.withdrawn ==> Terminals(s.inbox[id]) == 1)
    && Terminals(s.inbox[id]) <= 1
    && (forall e :: e in s.inbox[id] && e.Response? ==> e.req == id)
  }

  predicate Inv(s: State) {
    && (forall id :: id in s.db ==> id in s.inbox)
    && (forall id :: id in s.inbox ==> QueueOk(s, id))
  }

  lemma PostedOk(s: State, s': State, id: nat, e: Ev)
    requires id in s.inbox && id in s'.inbox && QueueOk(s, id) && id in s.db && !s.down
    requires s'.inbox[id] == s.inbox[id] + [e] && (e.Response? ==> e.req == id)
    requires Terminal(e) ==> s'.down || id !in s'.db
    requires !Terminal(e) ==> id in s'.db
    ensures QueueOk(s', id)
  {
    TerminalsPush(s.inbox[id], e);
  }

  lemma SameOk(s: State, s': State, id: nat)
    requires id in s.inbox && id in s'.inbox && QueueOk(s, id) && s'.inbox[id] == s.inbox[id]
    requires (id in s'.db ==> id in s.db) && (s.down ==> s'.down)
    requires id !in s'.db && id !in s'.withdrawn ==> id !in s.db && id !in s.withdrawn
    ensures QueueOk(s', id)
  {
  }

  lemma StepInv(s: State, t: Step)
    requires Inv(s) && Enabled(s, t)
    ensures Inv(Next(s, t))
  {
    var s' := Next(s, t);
    forall id | id in s'.inbox ensures QueueOk(s', id) {
      match t {
        case Add(k, r) => if k != id { SameOk(s, s', id); }
        case Answer(req, body) =>
          if req in s.db && id == req { PostedOk(s, s', id, Response(req, body)); } else { SameOk(s, s', id); }
        case Peer(e) =>
          if id in Failing(s.db, e) { PostedOk(s, s', id, PeerGone(e)); } else { SameOk(s, s', id); }
        case ConnDone(k, status) =>
          if k in s.db && id == k { PostedOk(s, s', id, Connected(status)); } else { SameOk(s, s', id); }
        case Withdraw(k) => SameOk(s, s', id);
        case Shutdown =>
          if id in s.db { PostedOk(s, s', id, Stopped); } else { SameOk(s, s', id); }
      }
    }
  }

  lemma {:induction false} RunInv(s: State, ts: seq<Step>)
    requires Inv(s) && Run(s, ts)
    ensures Inv(End(s, ts))
    decreases |ts|
  {
    if ts != [] {
      StepInv(s, ts[0]);
      RunInv(Next(s, ts[0]), ts[1..]);
    }
  }

  // ---------------------------------------------------------------- results

  /** Over every run: a request's queue holds at most one terminal event, so
      never both a response and a peer loss; a response there carries the
      request's own uuid; and a request that left the table without being
      withdrawn was told exactly once. */
  lemma RequestCorrelation(ts: seq<Step>, id: nat)
    requires Run(Init, ts) && id in End(Init, ts).inbox
    ensures var s := End(Init, ts);
            && Terminals(s.inbox[id]) <= 1
            && (forall e :: e in s.inbox[id] && e.Response? ==> e.req == id)
            && (id in s.db && !s.down ==> Terminals(s.inbox[id]) == 0)
            && (id !in s.db && id !in s.withdrawn ==> Terminals(s.inbox[id]) == 1)
  {
    RunInv(Init, ts);
  }

  lemma {:induction false} TerminalsCount(q: seq<Ev>, i: nat, j: nat)
    requires i < j < |q| && Terminal(q[i]) && Terminal(q[j])
    ensures Terminals(q) >= 2
    decreases |q|
  {
    if j < |q| - 1 {
      TerminalsCount(q[..|q| - 1], i, j);
    } else {
      TerminalsOne(q[..|q| - 1], i);
    }
  }

  lemma {:induction false} TerminalsOne(q: seq<Ev>, i: nat)
    requires i < |q| && Terminal(q[i])
    ensures Terminals(q) >= 1
    decreases |q|
  {
    if i < |q| - 1 { TerminalsOne(q[..|q| - 1], i); }
  }

  /** Response and peer loss are never both delivered to one request. */
  lemma NeverBoth(ts: seq<Step>, id: nat, i: nat, j: nat)
    requires Run(Init, ts) && id in End(Init, ts).inbox
    requires i < |End(Init, ts).inbox[id]| && j < |End(Init, ts).inbox[id]|
    ensures var q := End(Init, ts).inbox[id]; !(q[i].Response? && q[j].PeerGone?)
  {
    var q := End(Init, ts).inbox[id];
    RequestCorrelation(ts, id);
    if q[i].Response? && q[j].PeerGone? {
      TerminalsCount(q, if i < j then i else j, if i < j then j else i);
    }
  }

  /** The event is about something else: another process, another block of a
      process the request named a block of, a connect, or no loss at all. */
  predicate Elsewhere(r: Req, e: PeerEvent) {
    || (e.runtime != "" && e.runtime != r.remote)
    || (e.handle != "" && r.blk != "" && r.blk != ZeroUuid && r.blk != e.handle)
    || r.kind == ConnectTo || e.what == Ready || e.what == Degraded
  }

  /** Whatever happened before, a pending request is failed by an event exactly
      unless the event is about something else: then it gets the event as its
      one terminal event and leaves the table; otherwise nothing changes for it. */
  lemma LossFailsIff(ts: seq<Step>, id: nat, e: PeerEvent)
    requires Run(Init, ts) && id in End(Init, ts).db && !End(Init, ts).down
    ensures var s := End(Init, ts);
            var s' := Next(s, Peer(e));
            && id in s.inbox && id in s'.inbox
            && (Elsewhere(s.db[id], e) ==> id in s'.db && s'.db[id] == s.db[id] && s'.inbox[id] == s.inbox[id])
            && (!Elsewhere(s.db[id], e) ==>
                  id !in s'.db && s'.inbox[id] == s.inbox[id] + [PeerGone(e)] && Terminals(s'.inbox[id]) == 1)
  {
    RunInv(Init, ts);
    var s := End(Init, ts);
    assert QueueOk(s, id);
    assert id in Failing(s.db, e) <==> !Elsewhere(s.db[id], e);
    TerminalsPush(s.inbox[id], PeerGone(e));
  }

  // ---------------------------------------------------------------- one request at a time

  /** What one step does, told queue by queue: `ids` are the requests that hear of
      it, `e` is what they hear, and every other queue stays as it was. */
  predicate Heard(s: State, s': State, ids: set<nat>, e: Ev) {
    && s'.inbox.Keys == s.inbox.Keys
    && (forall k :: k in s.inbox && k in ids ==> s'.inbox[k] == s.inbox[k] + [e])
    && (forall k :: k in s.inbox && k !in ids ==> s'.inbox[k] == s.inbox[k])
    && s'.withdrawn == s.withdrawn
  }

  /** A response reaches the pending request it answers, which leaves the table; an
      unknown or already answered uuid changes nothing. */
  lemma AnswerReaches(s: State, id: nat, body: nat)
    requires Inv(s)
    ensures var s' := Next(s, Answer(id, body));
            && (id in s.db ==> Heard(s, s', {id}, Response(id, body)) && s'.db == s.db - {id} && s'.down == s.down)
            && (id !in s.db ==> s' == s)
  {
  }

  /** A completed connect reaches its request, which stays in the table. */
  lemma ConnectReaches(s: State, id: nat, status: int)
    requires Inv(s)
    ensures var s' := Next(s, ConnDone(id, status));
            && (id in s.db ==> Heard(s, s', {id}, Connected(status)) && s'.db == s.db && s'.down == s.down)
            && (id !in s.db ==> s' == s)
  {
  }

  /** The shutdown reaches exactly the pending requests. */
  lemma ShutdownReaches(s: State)
    requires Inv(s)
    ensures var s' := Next(s, Shutdown);
            Heard(s, s', s.db.Keys, Stopped) && s'.db == s.db && s'.down
  {
  }

  /** One request as its caller sees it: whether it is pending, and its queue. */
  datatype Own = Own(pending: bool, queue: seq<Ev>)

  function OwnOf(s: State, id: nat): Own {
    Own(id in s.db, if id in s.inbox then s.inbox[id] else [])
  }

  /** What a step means to the request `id`, which was sent as `r`. */
  function Follow(o: Own, id: nat, r: Req, t: Step): Own {
    match t
    case Add(k, _) => if k == id then Own(true, []) else o
    case Answer(k, body) => if k == id && o.pending then Own(false, o.queue + [Response(id, body)]) else o
    case Peer(e) => if o.pending && !Elsewhere(r, e) then Own(false, o.queue + [PeerGone(e)]) else o
    case ConnDone(k, status) => if k == id && o.pending then o.(queue := o.queue + [Connected(status)]) else o
    case Withdraw(k) => if k == id then o.(pending := false) else o
    case Shutdown => if o.pending then o.(queue := o.queue + [Stopped]) else o
  }

  function FollowAll(o: Own, id: nat, r: Req, ts: seq<Step>): Own
    decreases |ts|
  {
    if ts == [] then o else FollowAll(Follow(o, id, r, ts[0]), id, r, ts[1..])
  }

  lemma StepFollows(s: State, id: nat, r: Req, t: Step)
    requires Inv(s) && (id in s.db ==> s.db[id] == r) && (forall r' :: t == Add(id, r') ==> r' == r)
    ensures OwnOf(Next(s, t), id) == Follow(OwnOf(s, id), id, r, t)
    ensures id in Next(s, t).db ==> Next(s, t).db[id] == r
  {
    if t.Peer? && id in s.db {
      assert id in Failing(s.db, t.e) <==> !Elsewhere(r, t.e);
    }
  }

  /** Over every run, what a request hears and whether it is still pending follow
      from its own steps alone, whatever else the worker does in between. */
  lemma {:induction false} RequestsAreIndependent(s: State, ts: seq<Step>, id: nat, r: Req)
    requires Inv(s) && Run(s, ts) && (id in s.db ==> s.db[id] == r)
    requires forall r' :: Add(id, r') in ts ==> r' == r
    ensures OwnOf(End(s, ts), id) == FollowAll(OwnOf(s, id), id, r, ts)
    decreases |ts|
  {
    if ts != [] {
      assert ts == [ts[0]] + ts[1..];
      StepFollows(s, id, r, ts[0]);
      StepInv(s, ts[0]);
      RequestsAreIndependent(Next(s, ts[0]), ts[1..], id, r);
    }
  }

  /** Any request can be sent and answered, or withdrawn instead. */
  lemma AnsweredRun(id: nat, r: Req, body: nat)
    ensures Run(Init, [Add(id, r), Answer(id, body)]) && Run(Init, [Add(id, r), Withdraw(id)])
    ensures OwnOf(End(Init, [Add(id, r), Answer(id, body)]), id) == Own(false, [Response(id, body)])
    ensures OwnOf(End(Init, [Add(id, r), Withdraw(id)]), id) == Own(false, [])
  {
    var s1 := Next(Init, Add(id, r));
    assert [Add(id, r), Answer(id, body)][1..] == [Answer(id, body)] && [Answer(id, body)][1..] == [];
    assert [Add(id, r), Withdraw(id)][1..] == [Withdraw(id)] && [Withdraw(id)][1..] == [];
    assert Run(s1, [Answer(id, body)]) && Run(s1, [Withdraw(id)]);
    assert End(s1, [Answer(id, body)]) == Next(s1, Answer(id, body));
    assert End(s1, [Withdraw(id)]) == Next(s1, Withdraw(id));
  }

  // ---------------------------------------------------------------- the worker

  class WorkerThread {
    var db: map<nat, Req>
    var inbox: map<nat, seq<Ev>>
    var withdrawn: set<nat>
    var down: bool

    function View(): State
      reads this
    {
      State(db, inbox, withdrawn, down)
    }

    constructor ()
      ensures View() == Init
    {
      db, inbox, withdrawn, down := map[], map[], {}, false;
    }

    method AddWorkRequest(id: nat, r: Req)
      requires Enabled(View(), Add(id, r))
      modifies this
      ensures View() == Next(old(View()), Add(id, r))
    {
      db := db[id := r];
      inbox := inbox[id := []];
    }

    method RemoveWorkRequest(id: nat)
      modifies this
      ensures View() == Next(old(View()), Withdraw(id))
    {
      db := db - {id};
      withdrawn := withdrawn + {id};
    }

    /** fail_pending_peer_requests: the requests are picked and removed first, the
        events posted afterwards. */
    method FailPendingPeerRequests(e: PeerEvent)
      modifies this
      ensures View() == Next(old(View()), Peer(e))
    {
      if e.what != Lost && e.what != Removed {
        assert PostAll(inbox, {}, PeerGone(e)) == inbox;
        return;
      }
      var failed := TakeFailing(e);
      PostToAll(failed, PeerGone(e));
    }

    /** The part under the lock. */
    method TakeFailing(e: PeerEvent) returns (failed: set<nat>)
      requires e.what == Lost || e.what == Removed
      modifies `db
      ensures failed == Failing(old(db), e) && db == old(db) - failed
    {
      failed := {};
      ghost var start := db;
      var todo := db.Keys;
      while todo != {}
        invariant todo <= start.Keys && failed <= start.Keys - todo && db == start - failed
        invariant forall k :: k in start && k !in todo ==> (k in failed <==> Targets(start[k], e))
        decreases |todo|
      {
        var id :| id in todo;
        todo := todo - {id};
        if Targets(db[id], e) {
          failed := failed + {id};
          db := db - {id};
        }
      }
    }

    method PostToAll(ids: set<nat>, e: Ev)
      modifies `inbox
      ensures inbox == PostAll(old(inbox), ids, e)
    {
      var todo := ids;
      while todo != {}
        invariant todo <= ids && inbox == PostAll(old(inbox), ids - todo, e)
        decreases |todo|
      {
        var id :| id in todo;
        todo := todo - {id};
        inbox := Post(inbox, id, e);
      }
      assert ids - todo == ids;
    }

    /** The worker loop's handling of a response. */
    method HandleResponse(req: nat, body: nat)
      modifies this
      ensures View() == Next(old(View()), Answer(req, body))
    {
      if req in db {
        db := db - {req};
        inbox := Post(inbox, req, Response(req, body));
      }
    }

    method HandleConnComplete(id: nat, status: int)
      modifies `inbox
      ensures View() == Next(old(View()), ConnDone(id, status))
    {
      if id in db {
        inbox := Post(inbox, id, Connected(status));
      }
    }

    method HandleShutdown()
      modifies this
      ensures View() == Next(old(View()), Shutdown)
    {
      down := true;
      PostToAll(db.Keys, Stopped);
    }
  }
}

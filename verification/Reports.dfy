/**
  What a process reports over every run of the network: each block that is READY
  was reported exactly once under its uuid, and no handshake closes a socket.
 */
module Reports {
  import opened Common
  import opened Handshake
  import opened Fabric

  function Weight(b: Blk, id: nat): nat { if b.ready && b.id == id then 1 else 0 }

  /** How many READY blocks carry a uuid, and how often it was reported. */
  function ReadyBlocks(t: seq<Blk>, id: nat): nat {
    if t == [] then 0 else ReadyBlocks(t[..|t| - 1], id) + Weight(t[|t| - 1], id)
  }

  function Reported(events: seq<nat>, id: nat): nat {
    if events == [] then 0 else Reported(events[..|events| - 1], id) + if events[|events| - 1] == id then 1 else 0
  }

  predicate Told(d: Node, id: nat) {
    Reported(d.events, id) == ReadyBlocks(d.table, id) && d.closed == {}
  }

  lemma {:induction false} BlocksAppend(a: seq<Blk>, b: seq<Blk>, id: nat)
    ensures ReadyBlocks(a + b, id) == ReadyBlocks(a, id) + ReadyBlocks(b, id)
    decreases |b|
  {
    if b == [] {
      assert a + b == a;
    } else {
      assert (a + b)[..|a + b| - 1] == a + b[..|b| - 1];
      BlocksAppend(a, b[..|b| - 1], id);
    }
  }

  lemma BlocksOne(b: Blk, id: nat)
    ensures ReadyBlocks([b], id) == Weight(b, id)
  {
    assert [b][..0] == [];
  }

  lemma BlocksSplit(t: seq<Blk>, i: nat, c: Blk, id: nat)
    requires i < |t|
    ensures ReadyBlocks(t[i := c], id) == ReadyBlocks(t[..i], id) + Weight(c, id) + ReadyBlocks(t[i + 1..], id)
  {
    assert t[i := c] == t[..i] + [c] + t[i + 1..];
    BlocksAppend(t[..i] + [c], t[i + 1..], id);
    BlocksAppend(t[..i], [c], id);
    BlocksOne(c, id);
  }

  lemma BlocksSwap(t: seq<Blk>, i: nat, c: Blk, id: nat)
    requires i < |t|
    ensures ReadyBlocks(t[i := c], id) + Weight(t[i], id) == ReadyBlocks(t, id) + Weight(c, id)
  {
    BlocksSplit(t, i, c, id);
    BlocksSplit(t, i, t[i], id);
    assert t[i := t[i]] == t;
  }

  lemma BlocksRemove(t: seq<Blk>, i: nat, id: nat)
    requires i < |t|
    ensures ReadyBlocks(RemoveAt(t, i), id) + Weight(t[i], id) == ReadyBlocks(t, id)
  {
    BlocksAppend(t[..i], t[i + 1..], id);
    BlocksSplit(t, i, t[i], id);
    assert t[i := t[i]] == t;
  }

  lemma ReportedPush(events: seq<nat>, e: nat, id: nat)
    ensures Reported(events + [e], id) == Reported(events, id) + if e == id then 1 else 0
  {
    assert (events + [e])[..|events|] == events;
  }

  /** Marking a block READY reports it, and only then. */
  lemma MarkTold(d: Node, i: nat, b: Blk, me: Uuid, id: nat)
    requires i < |d.table| && Told(d, id) && b.id == d.table[i].id && b.ready == d.table[i].ready
    ensures Told(d.(table := d.table[i := MarkReady(me, b)], events := d.events + ReadyEvent(b)), id)
  {
    BlocksSwap(d.table, i, MarkReady(me, b), id);
    if ReadyPending(b) { ReportedPush(d.events, b.id, id); } else { assert d.events + [] == d.events; }
  }

  lemma SessionTold(cfg: Config, s: State, n: Uuid, i: nat, m: Body, insertOk: bool, id: nat)
    requires Waiting(cfg, s, n, i) && m.Session? && Told(NodeOf(s, n), id)
    requires TemporaryOk(s, n, NodeOf(s, n).table[i], NodeOf(s, n).sel)
    ensures Told(HandleSession(n, n in cfg.ofi, NodeOf(s, n), i, m, insertOk).node, id)
  {
    var d := NodeOf(s, n);
    var e := Find(d.table, Inbound, m.uuid);
    if e < |d.table| {
      if e != i {
        var b := Learn(Absorb(d.table[e], d.table[i], m), m.addr, n in cfg.ofi, insertOk);
        MarkTold(d, e, b, n, id);
        BlocksRemove(d.table[e := MarkReady(n, b)], i, id);
      }
    } else {
      BlocksSwap(d.table, i, Adopt(d.table[i], m, n in cfg.ofi, insertOk), id);
    }
  }

  /** A heartbeat makes a block READY exactly when it is reported. */
  lemma HeartbeatTold(d: Node, me: Uuid, up: bool, i: nat, m: Body, insertOk: bool, id: nat)
    requires i < |d.table| && m.Heartbeat? && Told(d, id)
    ensures Told(HandleHeartbeat(me, up, d, i, m, insertOk).node, id)
  {
    var b := d.table[i];
    HeartbeatFrame(me, up, b, m, insertOk);
    BlocksSwap(d.table, i, HeartbeatBlk(me, up, b, m, insertOk), id);
    ReportedPush(d.events, b.id, id);
    assert d.events + [] == d.events;
  }

  lemma ReadTold(cfg: Config, s: State, n: Uuid, i: nat, k: Sock, insertOk: bool, m: Uuid, id: nat)
    requires Inv(cfg, s) && i < |NodeOf(s, n).table| && Told(NodeOf(s, m), id)
    requires NodeOf(s, n).table[i].ctrl == Some(k) || NodeOf(s, n).table[i].rpc == Some(k)
    requires Q(s, In(n, k)) != []
    ensures Told(NodeOf(Read(cfg, s, n, i, k, insertOk), m), id)
  {
    var f := Q(s, In(n, k))[0];
    var o := Process(n, n in cfg.ofi, NodeOf(s, n), i, f, insertOk);
    var s' := Read(cfg, s, n, i, k, insertOk);
    SendsKeepNodes(SetNode(Pop(s, In(n, k)), n, o.node), n, o.sends);
    ReadNodes(cfg, s, n, i, k, insertOk);
    if m == n {
      if NodeOf(s, n).table[i].dir == Inbound && NodeOf(s, n).table[i].remote == 0 {
        WaitingFacts(cfg, s, n, i);
        SessionTold(cfg, s, n, i, f.body, insertOk, id);
      } else {
        PlainHead(cfg, s, n, i, k);
        assert SocksOk(s);
        if f.body.Heartbeat? { HeartbeatTold(NodeOf(s, n), n, n in cfg.ofi, i, f.body, insertOk, id); }
      }
    }
  }

  lemma {:induction false} SendsKeepNodes(s: State, n: Uuid, sends: seq<(Sock, Frame)>)
    ensures var s' := SendAll(s, n, sends);
            s'.nodes == s.nodes && s'.accepted == s.accepted && s'.linked == s.linked && s'.dialed == s.dialed
    decreases |sends|
  {
    if sends != [] { SendsKeepNodes(Push(s, Out(n, sends[0].0), sends[0].1), n, sends[1..]); }
  }

  lemma ReadNodes(cfg: Config, s: State, n: Uuid, i: nat, k: Sock, insertOk: bool)
    requires i < |NodeOf(s, n).table| && Q(s, In(n, k)) != []
    ensures var f := Q(s, In(n, k))[0];
            var o := Process(n, n in cfg.ofi, NodeOf(s, n), i, f, insertOk);
            var s' := Read(cfg, s, n, i, k, insertOk);
            s'.nodes == s.nodes[n := o.node] && s'.accepted == s.accepted
            && s'.linked == s.linked && s'.dialed == s.dialed
  {
    var f := Q(s, In(n, k))[0];
    var o := Process(n, n in cfg.ofi, NodeOf(s, n), i, f, insertOk);
    var p := Pop(s, In(n, k));
    var c := if f.body.Session? then p.(consumed := p.consumed + {k}) else p;
    SendsKeepNodes(SetNode(c, n, o.node).(fault := s.fault || o.fault), n, o.sends);
  }

  lemma AppendTold(d: Node, b: Blk, sel: set<Sock>, id: nat)
    requires Told(d, id) && !b.ready
    ensures Told(d.(table := d.table + [b], sel := sel), id)
  {
    BlocksAppend(d.table, [b], id);
    BlocksOne(b, id);
  }

  lemma AcceptTold(cfg: Config, s: State, k: Sock, bid: nat, peerAddr: nat, id: nat)
    requires Enabled(cfg, s, Accept(k, bid, peerAddr)) && AddressFree(s, Accept(k, bid, peerAddr))
    requires Told(NodeOf(s, k.acceptor), id)
    ensures Told(NodeOf(Next(cfg, s, Accept(k, bid, peerAddr)), k.acceptor), id)
  {
    var d := NodeOf(s, k.acceptor);
    AppendTold(d, Accepted(bid, k, peerAddr), d.sel + {k}, id);
  }

  lemma LinkTold(cfg: Config, s: State, x: Uuid, y: Uuid, bid: nat, peerAddr: nat, id: nat)
    requires Enabled(cfg, s, Link(x, y, bid, peerAddr)) && Told(NodeOf(s, x), id)
    ensures Told(NodeOf(Next(cfg, s, Link(x, y, bid, peerAddr)), x), id)
  {
    var d := NodeOf(s, x);
    AppendTold(d, Connected(bid, x, y, peerAddr), d.sel + {Sock(x, y, false), Sock(x, y, true)}, id);
  }

  lemma ReceiveTold(cfg: Config, s: State, n: Uuid, i: nat, rpcHalf: bool, insertOk: bool, m: Uuid, id: nat)
    requires Inv(cfg, s) && Enabled(cfg, s, Receive(n, i, rpcHalf, insertOk)) && Told(NodeOf(s, m), id)
    ensures Told(NodeOf(Next(cfg, s, Receive(n, i, rpcHalf, insertOk)), m), id)
  {
    NewRpcSilent(cfg, s, n, i, rpcHalf, insertOk);
    ReadTold(cfg, s, n, i, Half(NodeOf(s, n).table[i], rpcHalf).value, insertOk, m, id);
  }

  lemma StepTold(cfg: Config, s: State, t: Step, m: Uuid, id: nat)
    requires Inv(cfg, s) && Enabled(cfg, s, t) && AddressFree(s, t) && Told(NodeOf(s, m), id)
    ensures Told(NodeOf(Next(cfg, s, t), m), id)
  {
    match t
    case OpenCtrl(_, _, _) =>
    case OpenRpc(_, _, _) =>
    case Link(x, y, bid, peerAddr) => if m == x { LinkTold(cfg, s, x, y, bid, peerAddr, id); }
    case Accept(k, bid, peerAddr) => if m == k.acceptor { AcceptTold(cfg, s, k, bid, peerAddr, id); }
    case ReportOut(n, i) => if m == n { MarkTold(NodeOf(s, n), i, NodeOf(s, n).table[i], n, id); }
    case Receive(n, i, rpcHalf, insertOk) => ReceiveTold(cfg, s, n, i, rpcHalf, insertOk, m, id);
    case SendBeat(n, i) => SendsKeepNodes(s, n, Beat(n, n in cfg.ofi, NodeOf(s, n).table[i]));
    case SendRpc(_, _, _) =>
    case Deliver(_) =>
  }

  lemma {:induction false} RunTold(cfg: Config, s: State, steps: seq<Step>, s': State, m: Uuid, id: nat)
    requires Inv(cfg, s) && Run(cfg, s, steps, s') && AddressesFree(cfg, s, steps) && Told(NodeOf(s, m), id)
    ensures Told(NodeOf(s', m), id)
    decreases |steps|
  {
    if steps != [] {
      StepTold(cfg, s, steps[0], m, id);
      StepInv(cfg, s, steps[0]);
      RunTold(cfg, Next(cfg, s, steps[0]), steps[1..], s', m, id);
    }
  }

  /** In every disconnect-free run, at every process, a block uuid has been
      reported READY exactly as often as there are READY blocks with it - once,
      since uuids are unique - and no socket has been closed. */
  lemma ReadyReportedOnce(cfg: Config, steps: seq<Step>, s: State, m: Uuid, id: nat)
    requires Run(cfg, Start, steps, s) && AddressesFree(cfg, Start, steps)
    ensures Reported(NodeOf(s, m).events, id) == ReadyBlocks(NodeOf(s, m).table, id)
    ensures NodeOf(s, m).closed == {}
  {
    RunTold(cfg, Start, steps, s, m, id);
  }
}

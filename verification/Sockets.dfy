/**
  Who holds which socket, over every run of the network: each socket a process
  accepted or connected is in one slot of one block, exactly as long as no
  connection comes from the address of a live block.
 */
module Sockets {
  import opened Common
  import opened Handshake
  import opened Fabric
  import opened Reports

  /** The slots of a block, and of a table, that hold a socket. */
  function Holds(b: Blk, k: Sock): nat {
    (if b.ctrl == Some(k) then 1 else 0) + if b.rpc == Some(k) then 1 else 0
  }

  function Slots(t: seq<Blk>, k: Sock): nat {
    if t == [] then 0 else Slots(t[..|t| - 1], k) + Holds(t[|t| - 1], k)
  }

  /** Process w accepted this socket, or linked the connection it belongs to. */
  predicate Owned(s: State, w: Uuid, k: Sock) {
    (k.acceptor == w && k in s.accepted) || (k.connector == w && (w, k.acceptor) in s.linked)
  }

  ghost predicate HeldOnce(s: State, w: Uuid, k: Sock) {
    Slots(NodeOf(s, w).table, k) == if Owned(s, w, k) then 1 else 0
  }

  // ---------------------------------------------------------------- counting

  lemma {:induction false} SlotsAppend(a: seq<Blk>, b: seq<Blk>, k: Sock)
    ensures Slots(a + b, k) == Slots(a, k) + Slots(b, k)
    decreases |b|
  {
    if b == [] {
      assert a + b == a;
    } else {
      assert (a + b)[..|a + b| - 1] == a + b[..|b| - 1];
      SlotsAppend(a, b[..|b| - 1], k);
    }
  }

  lemma SlotsPush(t: seq<Blk>, b: Blk, k: Sock)
    ensures Slots(t + [b], k) == Slots(t, k) + Holds(b, k)
  {
    assert (t + [b])[..|t|] == t;
  }

  lemma SlotsSplit(t: seq<Blk>, i: nat, c: Blk, k: Sock)
    requires i < |t|
    ensures Slots(t[i := c], k) == Slots(t[..i], k) + Holds(c, k) + Slots(t[i + 1..], k)
  {
    assert t[i := c] == t[..i] + [c] + t[i + 1..];
    SlotsAppend(t[..i] + [c], t[i + 1..], k);
    SlotsPush(t[..i], c, k);
  }

  lemma SlotsSwap(t: seq<Blk>, i: nat, c: Blk, k: Sock)
    requires i < |t|
    ensures Slots(t[i := c], k) + Holds(t[i], k) == Slots(t, k) + Holds(c, k)
    ensures Holds(t[i], k) <= Slots(t, k)
  {
    SlotsSplit(t, i, c, k);
    SlotsSplit(t, i, t[i], k);
    assert t[i := t[i]] == t;
  }

  lemma SlotsRemove(t: seq<Blk>, i: nat, k: Sock)
    requires i < |t|
    ensures Slots(RemoveAt(t, i), k) + Holds(t[i], k) == Slots(t, k)
  {
    SlotsAppend(t[..i], t[i + 1..], k);
    SlotsSplit(t, i, t[i], k);
    assert t[i := t[i]] == t;
  }

  // ---------------------------------------------------------------- handlers move sockets

  /** The merge takes the temporary block's socket over, and drops nothing. */
  lemma MergeSlots(cfg: Config, s: State, n: Uuid, i: nat, e: nat, m: Body, insertOk: bool, k: Sock)
    requires Merging(cfg, s, n, i, e, m, insertOk)
    ensures var t := NodeOf(s, n).table;
            Holds(MergedBlk(cfg, s, n, i, e, m, insertOk), k) == Holds(t[e], k) + Holds(t[i], k)
  {
    var t := NodeOf(s, n).table;
    assert TableOk(cfg, s, n) && t[e] in t && SocksOk(s);
    assert ShapeOk(s, n, t[e], NodeOf(s, n).sel);
  }

  lemma SessionSlots(cfg: Config, s: State, n: Uuid, i: nat, insertOk: bool, k: Sock)
    requires Waiting(cfg, s, n, i) && (cfg.insertsOk ==> insertOk)
    requires TemporaryOk(s, n, NodeOf(s, n).table[i], NodeOf(s, n).sel)
    requires var q := Q(s, Chan(NodeOf(s, n).table[i].ctrl.value, true));
             q != [] && Hello(cfg, NodeOf(s, n).table[i].ctrl.value, q[0])
    ensures var m := Q(s, Chan(NodeOf(s, n).table[i].ctrl.value, true))[0].body;
            Slots(HandleSession(n, n in cfg.ofi, NodeOf(s, n), i, m, insertOk).node.table, k)
            == Slots(NodeOf(s, n).table, k)
  {
    var t := NodeOf(s, n).table;
    var m := Q(s, Chan(t[i].ctrl.value, true))[0].body;
    var e := Find(t, Inbound, m.uuid);
    if e < |t| {
      MergeSlots(cfg, s, n, i, e, m, insertOk, k);
      var r := MergedBlk(cfg, s, n, i, e, m, insertOk);
      SlotsSwap(t, e, r, k);
      SlotsRemove(t[e := r], i, k);
    } else {
      SlotsSwap(t, i, Adopt(t[i], m, n in cfg.ofi, insertOk), k);
    }
  }

  lemma HeartbeatSlots(me: Uuid, up: bool, d: Node, i: nat, m: Body, insertOk: bool, k: Sock)
    requires i < |d.table| && m.Heartbeat?
    ensures Slots(HandleHeartbeat(me, up, d, i, m, insertOk).node.table, k) == Slots(d.table, k)
  {
    HeartbeatFrame(me, up, d.table[i], m, insertOk);
    SlotsSwap(d.table, i, HeartbeatBlk(me, up, d.table[i], m, insertOk), k);
  }

  /** What a process reads on a socket of its own moves no socket in or out. */
  lemma ProcessSlots(cfg: Config, s: State, n: Uuid, i: nat, h: Sock, insertOk: bool, k: Sock)
    requires Inv(cfg, s) && i < |NodeOf(s, n).table| && (cfg.insertsOk ==> insertOk)
    requires NodeOf(s, n).table[i].ctrl == Some(h) || NodeOf(s, n).table[i].rpc == Some(h)
    requires Q(s, In(n, h)) != []
    ensures var o := Process(n, n in cfg.ofi, NodeOf(s, n), i, Q(s, In(n, h))[0], insertOk);
            Slots(o.node.table, k) == Slots(NodeOf(s, n).table, k)
  {
    var b, f := NodeOf(s, n).table[i], Q(s, In(n, h))[0];
    if b.dir == Inbound && b.remote == 0 {
      WaitingFacts(cfg, s, n, i);
      SessionSlots(cfg, s, n, i, insertOk, k);
    } else {
      PlainHead(cfg, s, n, i, h);
      if f.body.Heartbeat? { HeartbeatSlots(n, n in cfg.ofi, NodeOf(s, n), i, f.body, insertOk, k); }
    }
  }

  lemma ReceiveHeldOnce(cfg: Config, s: State, n: Uuid, i: nat, rpcHalf: bool, insertOk: bool, w: Uuid, k: Sock)
    requires Inv(cfg, s) && Enabled(cfg, s, Receive(n, i, rpcHalf, insertOk)) && HeldOnce(s, w, k)
    ensures HeldOnce(Next(cfg, s, Receive(n, i, rpcHalf, insertOk)), w, k)
  {
    var h := Half(NodeOf(s, n).table[i], rpcHalf).value;
    NewRpcSilent(cfg, s, n, i, rpcHalf, insertOk);
    ReadNodes(cfg, s, n, i, h, insertOk);
    ProcessSlots(cfg, s, n, i, h, insertOk, k);
  }

  lemma LinkSlots(cfg: Config, s: State, x: Uuid, y: Uuid, id: nat, peerAddr: nat, w: Uuid, k: Sock)
    requires Enabled(cfg, s, Link(x, y, id, peerAddr))
    ensures Slots(NodeOf(Next(cfg, s, Link(x, y, id, peerAddr)), w).table, k) ==
            Slots(NodeOf(s, w).table, k) + if w == x == k.connector && k.acceptor == y then 1 else 0
  {
    var b := Connected(id, x, y, peerAddr);
    SlotsPush(NodeOf(s, x).table, b, k);
    assert Holds(b, k) == if x == k.connector && k.acceptor == y then 1 else 0;
  }

  lemma LinkOwned(cfg: Config, s: State, x: Uuid, y: Uuid, id: nat, peerAddr: nat, w: Uuid, k: Sock)
    requires Enabled(cfg, s, Link(x, y, id, peerAddr)) && x != y
    ensures Owned(Next(cfg, s, Link(x, y, id, peerAddr)), w, k) <==>
            Owned(s, w, k) || (w == x == k.connector && k.acceptor == y)
    ensures w == x == k.connector && k.acceptor == y ==> !Owned(s, w, k)
  {
  }

  /** What an accept does to a table: a free address adds the socket, and no
      other socket is ever added. */
  lemma HandleAcceptSlots(d: Node, id: nat, a: Sock, peerAddr: nat, k: Sock)
    ensures var t' := HandleAccept(d, id, a, peerAddr).table;
            && (FindAlive(d.table, peerAddr) == |d.table| ==>
                  Slots(t', k) == Slots(d.table, k) + if k == a then 1 else 0)
            && (k != a ==> Slots(t', k) <= Slots(d.table, k))
  {
    var e := FindAlive(d.table, peerAddr);
    if e < |d.table| {
      SlotsSwap(d.table, e, d.table[e].(ctrl := Some(a)), k);
    } else {
      SlotsPush(d.table, Accepted(id, a, peerAddr), k);
    }
  }

  lemma AcceptNode(cfg: Config, s: State, a: Sock, id: nat, peerAddr: nat, w: Uuid)
    requires Enabled(cfg, s, Accept(a, id, peerAddr))
    ensures NodeOf(Next(cfg, s, Accept(a, id, peerAddr)), w) ==
            if w == a.acceptor then HandleAccept(NodeOf(s, w), id, a, peerAddr) else NodeOf(s, w)
  {
  }

  lemma AcceptSlots(cfg: Config, s: State, a: Sock, id: nat, peerAddr: nat, w: Uuid, k: Sock)
    requires Enabled(cfg, s, Accept(a, id, peerAddr))
    ensures AddressFree(s, Accept(a, id, peerAddr)) ==>
              Slots(NodeOf(Next(cfg, s, Accept(a, id, peerAddr)), w).table, k) ==
              Slots(NodeOf(s, w).table, k) + if w == a.acceptor && k == a then 1 else 0
    ensures w != a.acceptor || k != a ==>
              Slots(NodeOf(Next(cfg, s, Accept(a, id, peerAddr)), w).table, k) <= Slots(NodeOf(s, w).table, k)
  {
    AcceptNode(cfg, s, a, id, peerAddr, w);
    if w == a.acceptor { HandleAcceptSlots(NodeOf(s, w), id, a, peerAddr, k); }
  }

  lemma AcceptOwned(cfg: Config, s: State, a: Sock, id: nat, peerAddr: nat, w: Uuid, k: Sock)
    requires Enabled(cfg, s, Accept(a, id, peerAddr)) && a.connector != a.acceptor
    ensures Owned(Next(cfg, s, Accept(a, id, peerAddr)), w, k) <==> Owned(s, w, k) || (w == a.acceptor && k == a)
    ensures w == a.acceptor && k == a ==> !Owned(s, w, k)
  {
  }

  lemma ReportSlots(cfg: Config, s: State, n: Uuid, i: nat, w: Uuid, k: Sock)
    requires Enabled(cfg, s, ReportOut(n, i))
    ensures Slots(NodeOf(Next(cfg, s, ReportOut(n, i)), w).table, k) == Slots(NodeOf(s, w).table, k)
  {
    SlotsSwap(NodeOf(s, n).table, i, MarkReady(n, NodeOf(s, n).table[i]), k);
  }

  predicate Quiet(t: Step) {
    t.OpenCtrl? || t.OpenRpc? || t.SendBeat? || t.SendRpc? || t.Deliver?
  }

  /** Sending, and opening a socket, change no table. */
  lemma QuietStep(cfg: Config, s: State, t: Step)
    requires Enabled(cfg, s, t) && Quiet(t)
    ensures var s' := Next(cfg, s, t);
            s'.nodes == s.nodes && s'.accepted == s.accepted && s'.linked == s.linked && s.dialed <= s'.dialed
  {
    if t.SendBeat? { SendsKeepNodes(s, t.n, Beat(t.n, t.n in cfg.ofi, NodeOf(s, t.n).table[t.i])); }
  }

  /** Every step keeps each socket in one slot of its owner's table. */
  lemma StepHeldOnce(cfg: Config, s: State, t: Step, w: Uuid, k: Sock)
    requires Inv(cfg, s) && Enabled(cfg, s, t) && AddressFree(s, t) && HeldOnce(s, w, k)
    ensures HeldOnce(Next(cfg, s, t), w, k)
  {
    match t
    case Link(x, y, id, peerAddr) =>
      LinkSlots(cfg, s, x, y, id, peerAddr, w, k);
      LinkOwned(cfg, s, x, y, id, peerAddr, w, k);
    case Accept(a, id, peerAddr) =>
      AcceptSlots(cfg, s, a, id, peerAddr, w, k);
      AcceptOwned(cfg, s, a, id, peerAddr, w, k);
    case ReportOut(n, i) => ReportSlots(cfg, s, n, i, w, k);
    case Receive(n, i, rpcHalf, insertOk) => ReceiveHeldOnce(cfg, s, n, i, rpcHalf, insertOk, w, k);
    case _ => QuietStep(cfg, s, t);
  }

  lemma {:induction false} RunHeldOnce(cfg: Config, s: State, steps: seq<Step>, s': State, w: Uuid, k: Sock)
    requires Inv(cfg, s) && Run(cfg, s, steps, s') && AddressesFree(cfg, s, steps) && HeldOnce(s, w, k)
    ensures HeldOnce(s', w, k)
    decreases |steps|
  {
    if steps != [] {
      StepHeldOnce(cfg, s, steps[0], w, k);
      StepInv(cfg, s, steps[0]);
      RunHeldOnce(cfg, Next(cfg, s, steps[0]), steps[1..], s', w, k);
    }
  }

  // ---------------------------------------------------------------- a socket nobody holds

  /** A socket its owner's table no longer holds. */
  ghost predicate Orphaned(s: State, w: Uuid, k: Sock) {
    Owned(s, w, k) && Slots(NodeOf(s, w).table, k) == 0
  }

  predicate NoSelfDial(s: State) {
    (forall k :: k in s.dialed ==> k.connector != k.acceptor) && s.accepted <= s.dialed
  }

  lemma MergeLost(t: seq<Blk>, i: nat, e: nat, r: Blk, k: Sock)
    requires i < |t| && e < |t| && e != i && Slots(t, k) == 0
    requires Holds(r, k) <= Holds(t[e], k) + Holds(t[i], k)
    ensures Slots(RemoveAt(t[e := r], i), k) == 0
  {
    SlotsSwap(t, i, t[i], k);
    SlotsSwap(t, e, r, k);
    SlotsRemove(t[e := r], i, k);
  }

  /** No handler puts a socket into a table that has lost it. */
  lemma SessionLost(me: Uuid, up: bool, d: Node, i: nat, m: Body, insertOk: bool, k: Sock)
    requires i < |d.table| && m.Session? && Slots(d.table, k) == 0
    ensures Slots(HandleSession(me, up, d, i, m, insertOk).node.table, k) == 0
  {
    var e := Find(d.table, Inbound, m.uuid);
    if e == |d.table| {
      SlotsSwap(d.table, i, Adopt(d.table[i], m, up, insertOk), k);
    } else if e != i {
      MergeLost(d.table, i, e, MarkReady(me, Learn(Absorb(d.table[e], d.table[i], m), m.addr, up, insertOk)), k);
    }
  }

  lemma ProcessLost(me: Uuid, up: bool, d: Node, i: nat, f: Frame, insertOk: bool, k: Sock)
    requires i < |d.table| && Slots(d.table, k) == 0
    ensures Slots(Process(me, up, d, i, f, insertOk).node.table, k) == 0
  {
    match f.body
    case Session(_, _, _, _) => SessionLost(me, up, d, i, f.body, insertOk, k);
    case Heartbeat(_, _) => HeartbeatSlots(me, up, d, i, f.body, insertOk, k);
    case Rpc =>
  }

  lemma ReceiveOrphaned(cfg: Config, s: State, n: Uuid, i: nat, rpcHalf: bool, insertOk: bool, w: Uuid, k: Sock)
    requires Enabled(cfg, s, Receive(n, i, rpcHalf, insertOk)) && NoSelfDial(s) && Orphaned(s, w, k)
    ensures var s' := Next(cfg, s, Receive(n, i, rpcHalf, insertOk));
            NoSelfDial(s') && Orphaned(s', w, k)
  {
    var b := NodeOf(s, n).table[i];
    if !(b.isNew && rpcHalf) {
      var h := Half(b, rpcHalf).value;
      ReadNodes(cfg, s, n, i, h, insertOk);
      if w == n { ProcessLost(n, n in cfg.ofi, NodeOf(s, n), i, Q(s, In(n, h))[0], insertOk, k); }
    }
  }

  /** An orphaned socket stays so, whatever happens: this needs no invariant. */
  lemma StepOrphaned(cfg: Config, s: State, t: Step, w: Uuid, k: Sock)
    requires NoSelfDial(s) && Enabled(cfg, s, t) && Orphaned(s, w, k)
    ensures NoSelfDial(Next(cfg, s, t)) && Orphaned(Next(cfg, s, t), w, k)
  {
    match t
    case OpenCtrl(_, _, _) =>
    case OpenRpc(x, y, _) => assert Sock(x, y, false) in s.dialed;
    case Link(x, y, id, peerAddr) =>
      assert Sock(x, y, false) in s.dialed;
      LinkSlots(cfg, s, x, y, id, peerAddr, w, k);
      LinkOwned(cfg, s, x, y, id, peerAddr, w, k);
    case Accept(a, id, peerAddr) =>
      AcceptSlots(cfg, s, a, id, peerAddr, w, k);
      AcceptOwned(cfg, s, a, id, peerAddr, w, k);
    case ReportOut(n, i) => ReportSlots(cfg, s, n, i, w, k);
    case Receive(n, i, rpcHalf, insertOk) => ReceiveOrphaned(cfg, s, n, i, rpcHalf, insertOk, w, k);
    case SendBeat(n, i) => SendsKeepNodes(s, n, Beat(n, n in cfg.ofi, NodeOf(s, n).table[i]));
    case SendRpc(_, _, _) =>
    case Deliver(_) =>
  }

  lemma {:induction false} RunOrphaned(cfg: Config, s: State, steps: seq<Step>, s': State, w: Uuid, k: Sock)
    requires NoSelfDial(s) && Run(cfg, s, steps, s') && Orphaned(s, w, k)
    ensures Orphaned(s', w, k)
    decreases |steps|
  {
    if steps != [] {
      StepOrphaned(cfg, s, steps[0], w, k);
      RunOrphaned(cfg, Next(cfg, s, steps[0]), steps[1..], s', w, k);
    }
  }

  /** A connection from the address of a live block takes that block over: the
      block's control channel is now the new socket, and its own is orphaned. */
  lemma CollisionOrphans(cfg: Config, s: State, k: Sock, id: nat, peerAddr: nat) returns (c: Sock)
    requires Inv(cfg, s) && Enabled(cfg, s, Accept(k, id, peerAddr)) && !AddressFree(s, Accept(k, id, peerAddr))
    requires forall l :: HeldOnce(s, k.acceptor, l)
    ensures var t, t' := NodeOf(s, k.acceptor).table, NodeOf(Next(cfg, s, Accept(k, id, peerAddr)), k.acceptor).table;
            var e := FindAlive(t, peerAddr);
            e < |t| && t[e].ctrl == Some(c) && t' == t[e := t[e].(ctrl := Some(k))]
    ensures Orphaned(Next(cfg, s, Accept(k, id, peerAddr)), k.acceptor, c)
  {
    var n := k.acceptor;
    var t := NodeOf(s, n).table;
    var e := FindAlive(t, peerAddr);
    assert TableOk(cfg, s, n) && t[e] in t && SocksOk(s);
    assert ShapeOk(s, n, t[e], NodeOf(s, n).sel);
    c := t[e].ctrl.value;
    SlotsSwap(t, e, t[e].(ctrl := Some(k)), c);
    assert HeldOnce(s, n, c) && HeldOnce(s, n, k);
  }

  /** Once a connection has come from a live block's address, some socket is lost
      for the rest of the run. */
  lemma {:induction false} RunCollides(cfg: Config, s: State, steps: seq<Step>, s': State) returns (w: Uuid, k: Sock)
    requires Inv(cfg, s) && (forall u, l :: HeldOnce(s, u, l))
    requires Run(cfg, s, steps, s') && !AddressesFree(cfg, s, steps)
    ensures Orphaned(s', w, k)
    decreases |steps|
  {
    var t, s1 := steps[0], Next(cfg, s, steps[0]);
    if AddressFree(s, t) {
      StepInv(cfg, s, t);
      forall u, l ensures HeldOnce(s1, u, l) { StepHeldOnce(cfg, s, t, u, l); }
      w, k := RunCollides(cfg, s1, steps[1..], s');
    } else {
      w := t.k.acceptor;
      k := CollisionOrphans(cfg, s, t.k, t.id, t.peerAddr);
      RunOrphaned(cfg, s1, steps[1..], s', w, k);
    }
  }

  /** Process 1 connects to 2; the address of its block is 7. */
  lemma ConnectRun(cfg: Config, info: PeerInfo) returns (s1: State, s2: State, s: State)
    ensures Enabled(cfg, Start, OpenCtrl(1, 2, info)) && s1 == Next(cfg, Start, OpenCtrl(1, 2, info))
    ensures Enabled(cfg, s1, OpenRpc(1, 2, info)) && s2 == Next(cfg, s1, OpenRpc(1, 2, info))
    ensures Enabled(cfg, s2, Link(1, 2, 10, 7)) && s == Next(cfg, s2, Link(1, 2, 10, 7))
    ensures NodeOf(s, 1).table == [Connected(10, 1, 2, 7)]
    ensures s.dialed == {Sock(1, 2, false), Sock(1, 2, true)} && s.accepted == {} && s.linked == {(1, 2)}
  {
    s1 := Next(cfg, Start, OpenCtrl(1, 2, info));
    s2 := Next(cfg, s1, OpenRpc(1, 2, info));
    s := Next(cfg, s2, Link(1, 2, 10, 7));
  }

  /** Process 3 connects to 1 from the address 7. */
  lemma TakeoverRun(cfg: Config, info: PeerInfo, s: State) returns (steps: seq<Step>, s': State)
    requires NodeOf(s, 1).table == [Connected(10, 1, 2, 7)]
    requires s.dialed == {Sock(1, 2, false), Sock(1, 2, true)} && s.accepted == {} && s.linked == {(1, 2)}
    ensures Run(cfg, s, steps, s') && !AddressesFree(cfg, s, steps)
    ensures NodeOf(s', 1).table == [Connected(10, 1, 2, 7).(ctrl := Some(Sock(3, 1, false)))]
    ensures Owned(s', 1, Sock(1, 2, false))
  {
    var t1, t2 := OpenCtrl(3, 1, info), Accept(Sock(3, 1, false), 11, 7);
    var s1 := Next(cfg, s, t1);
    s', steps := Next(cfg, s1, t2), [t1] + ([t2] + []);
    RunBack(cfg, s1, t2, [], s');
    RunBack(cfg, s, t1, [t2] + [], s');
  }

  /** An input that loses a socket: process 1 connects to 2, which leaves the
      address 7 on its block, and process 3 connects to 1 from there. */
  lemma CollisionHappens(cfg: Config, info: PeerInfo) returns (steps: seq<Step>, s: State)
    ensures Run(cfg, Start, steps, s) && !AddressesFree(cfg, Start, steps)
    ensures NodeOf(s, 1).table == [Connected(10, 1, 2, 7).(ctrl := Some(Sock(3, 1, false)))]
    ensures Orphaned(s, 1, Sock(1, 2, false))
  {
    var s1, s2, s3 := ConnectRun(cfg, info);
    var rest, s' := TakeoverRun(cfg, info, s3);
    RunBack(cfg, s2, Link(1, 2, 10, 7), rest, s');
    RunBack(cfg, s1, OpenRpc(1, 2, info), [Link(1, 2, 10, 7)] + rest, s');
    RunBack(cfg, Start, OpenCtrl(1, 2, info), [OpenRpc(1, 2, info)] + ([Link(1, 2, 10, 7)] + rest), s');
    steps, s := [OpenCtrl(1, 2, info)] + ([OpenRpc(1, 2, info)] + ([Link(1, 2, 10, 7)] + rest)), s';
    SlotsPush([], NodeOf(s, 1).table[0], Sock(1, 2, false));
    assert [] + [NodeOf(s, 1).table[0]] == NodeOf(s, 1).table;
  }

  lemma RunBack(cfg: Config, s: State, t: Step, rest: seq<Step>, s': State)
    requires Enabled(cfg, s, t) && Run(cfg, Next(cfg, s, t), rest, s')
    ensures Run(cfg, s, [t] + rest, s')
    ensures AddressesFree(cfg, s, [t] + rest) <==> AddressFree(s, t) && AddressesFree(cfg, Next(cfg, s, t), rest)
  {
    assert ([t] + rest)[1..] == rest;
  }

  // ---------------------------------------------------------------- results

  lemma StartHeldOnce(cfg: Config)
    ensures Inv(cfg, Start) && forall w, k :: HeldOnce(Start, w, k)
  {
    assert forall n :: NodeOf(Start, n).table == [];
  }

  /** While every connection comes from an address of its own, each socket a
      process accepted or linked is in exactly one slot of exactly one block, and
      no block holds any other. */
  lemma EverySocketHeldOnce(cfg: Config, steps: seq<Step>, s: State, w: Uuid, k: Sock)
    requires Run(cfg, Start, steps, s) && AddressesFree(cfg, Start, steps)
    ensures Slots(NodeOf(s, w).table, k) == if Owned(s, w, k) then 1 else 0
  {
    StartHeldOnce(cfg);
    RunHeldOnce(cfg, Start, steps, s, w, k);
  }

  /** Over every run: no process has lost a socket if and only if no connection
      came from the address of a live block. */
  lemma NoSocketLostIff(cfg: Config, steps: seq<Step>, s: State)
    requires Run(cfg, Start, steps, s)
    ensures (forall w, k :: !Orphaned(s, w, k)) <==> AddressesFree(cfg, Start, steps)
  {
    StartHeldOnce(cfg);
    if AddressesFree(cfg, Start, steps) {
      forall w, k ensures !Orphaned(s, w, k) { EverySocketHeldOnce(cfg, steps, s, w, k); }
    } else {
      var w, k := RunCollides(cfg, Start, steps, s);
    }
  }
}

/**
  Agent blocks and the two message handlers that build them: the session
  message each half of a connection pair opens with, and the heartbeat.  A node
  is the agent table plus what the handlers touch besides it (the select mask,
  the peer events raised and the sockets closed).
 */
module Handshake {
  import opened Common

  /** A process identity; 0 is the null uuid. */
  type Uuid = nat

  /** One TCP socket of the pair `connector` opens towards `acceptor`. */
  datatype Sock = Sock(connector: Uuid, acceptor: Uuid, rpc: bool)

  /** What a session message says about its sender besides identity and address. */
  datatype PeerInfo = PeerInfo(nodeType: int, pid: int, listenPort: int, hostname: string, name: string)

  /** `addr` is the sender's fabric address; 0 stands for an address length of 0. */
  datatype Body =
    | Session(uuid: Uuid, rpcSetup: bool, addr: Uuid, info: PeerInfo)
    | Heartbeat(uuid: Uuid, addr: Uuid)
    | Rpc

  /** A framed message; the header names its sender. */
  datatype Frame = Frame(stamp: Uuid, body: Body)

  datatype Direction = Inbound | Outbound

  datatype Blk = Blk(
    id: nat,                 // block uuid
    dir: Direction,
    remote: Uuid,
    info: Option<PeerInfo>,
    peerAddr: nat,           // socket address of the control half
    ctrl: Option<Sock>,      // iFileDesc
    rpc: Option<Sock>,       // iRpcFd
    isNew: bool,
    alive: bool,
    ctrlUp: bool,
    rpcUp: bool,
    ready: bool,             // PEER_READY_REPORTED
    hbRemote: bool,          // heartbeat_mode is REMOTE
    addrValid: bool,
    ofiAddr: Uuid,
    ofiReady: bool)

  datatype Node = Node(table: seq<Blk>, sel: set<Sock>, events: seq<nat>, closed: set<Sock>)

  /** Outcome of handling one message: the node, what it sends, and whether the
      handler hit a check that kills the connection or the process. */
  datatype Outcome = Outcome(node: Node, sends: seq<(Sock, Frame)>, fault: bool)

  /** The block `accept` creates for a socket: its identity is still unknown. */
  function Accepted(id: nat, k: Sock, peerAddr: nat): Blk {
    Blk(id, Inbound, 0, None, peerAddr, Some(k), None, true, false, false, false, false, false, false, 0, false)
  }

  /** The block a connect thread links once both sockets are up. */
  function Connected(id: nat, x: Uuid, y: Uuid, peerAddr: nat): Blk {
    Blk(id, Outbound, 0, None, peerAddr, Some(Sock(x, y, false)), Some(Sock(x, y, true)),
        false, true, true, true, false, false, false, 0, false)
  }

  /** Index of the first block with this direction and remote uuid, or |t|. */
  function Find(t: seq<Blk>, dir: Direction, u: Uuid): (e: nat)
    ensures e <= |t|
    ensures e < |t| ==> t[e].dir == dir && t[e].remote == u
    ensures forall i :: 0 <= i < e ==> !(t[i].dir == dir && t[i].remote == u)
  {
    if t == [] then 0
    else if t[0].dir == dir && t[0].remote == u then 0
    else 1 + Find(t[1..], dir, u)
  }

  /** The lookup a fabric message is dispatched with: outbound blocks first. */
  function FindGlobal(t: seq<Blk>, u: Uuid): (e: nat)
    ensures e <= |t|
    ensures e < |t| ==> t[e].remote == u
    ensures e == |t| ==> forall i :: 0 <= i < |t| ==> t[i].remote != u
    ensures e < |t| && t[e].dir == Inbound ==> forall i :: 0 <= i < |t| ==> !(t[i].dir == Outbound && t[i].remote == u)
    ensures e < |t| ==> forall i :: 0 <= i < e ==> !(t[i].dir == t[e].dir && t[i].remote == u)
  {
    var o := Find(t, Outbound, u);
    if o < |t| then o else Find(t, Inbound, u)
  }

  /** Index of the first live block with this socket address, or |t|. */
  function FindAlive(t: seq<Blk>, addr: nat): (e: nat)
    ensures e <= |t|
    ensures e < |t| ==> t[e].alive && t[e].peerAddr == addr
    ensures forall i :: 0 <= i < e ==> !(t[i].alive && t[i].peerAddr == addr)
  {
    if t == [] then 0
    else if t[0].alive && t[0].peerAddr == addr then 0
    else 1 + FindAlive(t[1..], addr)
  }

  /** A connection comes in: a live block with its address is given the socket as
      its control channel, whatever it had before; otherwise a new block is. */
  function HandleAccept(n: Node, id: nat, k: Sock, peerAddr: nat): Node {
    var e := FindAlive(n.table, peerAddr);
    n.(table := if e < |n.table| then n.table[e := n.table[e].(ctrl := Some(k))]
                else n.table + [Accepted(id, k, peerAddr)],
       sel := n.sel + {k})
  }

  function RemoveAt<T>(t: seq<T>, i: nat): seq<T>
    requires i < |t|
  {
    t[..i] + t[i + 1..]
  }

  function Learn(b: Blk, addr: Uuid, up: bool, insertOk: bool): Blk {
    if b.addrValid || addr == 0 || !up || !insertOk then b
    else b.(addrValid := true, ofiAddr := addr)
  }

  predicate ReadyPending(b: Blk) {
    b.remote != 0 && b.ctrlUp && b.rpcUp && !b.ready
  }

  function MarkReady(me: Uuid, b: Blk): Blk {
    if ReadyPending(b) then b.(ready := true, hbRemote := b.remote != me) else b
  }

  function ReadyEvent(b: Blk): seq<nat> {
    if ReadyPending(b) then [b.id] else []
  }

  /** A heartbeat leaves on the block's control channel. */
  function Beat(me: Uuid, up: bool, b: Blk): seq<(Sock, Frame)> {
    if b.ctrl.None? then []
    else [(b.ctrl.value, Frame(me, Heartbeat(me, if up then me else 0)))]
  }

  /** A session message that names a peer the table already holds: the temporary
      block at `i` hands its socket to the existing block `e` and goes away. */
  function Absorb(b: Blk, a: Blk, m: Body): Blk
    requires m.Session?
  {
    if m.rpcSetup then b.(rpc := a.ctrl, rpcUp := true)
    else b.(ctrl := a.ctrl, peerAddr := a.peerAddr, ctrlUp := true, alive := true, isNew := false)
  }

  /** A session message that is the first from its sender: the temporary block
      becomes the peer's block. */
  function Adopt(a: Blk, m: Body, up: bool, insertOk: bool): Blk
    requires m.Session?
  {
    var b := Learn(a.(dir := Inbound, remote := m.uuid, info := Some(m.info)), m.addr, up, insertOk);
    if m.rpcSetup then b.(rpc := a.ctrl, ctrl := None, rpcUp := true)
    else b.(ctrlUp := true, alive := true, isNew := false)
  }

  function SockSet(k: Option<Sock>): set<Sock> {
    if k.Some? then {k.value} else {}
  }

  /** What releasing the temporary block closes: nothing while it is NEW. */
  function Closes(a: Blk): set<Sock> {
    if a.isNew then {} else SockSet(a.ctrl) + SockSet(a.rpc)
  }

  function HandleSession(me: Uuid, up: bool, n: Node, i: nat, m: Body, insertOk: bool): Outcome
    requires i < |n.table| && m.Session?
  {
    var e := Find(n.table, Inbound, m.uuid);
    var a := n.table[i];
    if e < |n.table| then
      if e == i then Outcome(n, [], true)          // assert(agent != existing)
      else
        var b := Learn(Absorb(n.table[e], a, m), m.addr, up, insertOk);
        var sel := if m.rpcSetup then n.sel else n.sel + SockSet(n.table[e].rpc);
        var r := MarkReady(me, b);
        Outcome(
          Node(RemoveAt(n.table[e := r], i), sel, n.events + ReadyEvent(b), n.closed + Closes(a)),
          if ReadyPending(b) then Beat(me, up, r) else [],
          false)
    else
      var b := Adopt(a, m, up, insertOk);
      var sel := if m.rpcSetup then n.sel - SockSet(a.ctrl) else n.sel;
      Outcome(n.(table := n.table[i := b], sel := sel), [], false)
  }

  /** What a heartbeat teaches a block. */
  function Heard(up: bool, b: Blk, m: Body, insertOk: bool): Blk
    requires m.Heartbeat?
  {
    var c := Learn(b.(remote := if b.remote == 0 then m.uuid else b.remote), m.addr, up, insertOk);
    c.(ofiReady := c.ofiReady || c.addrValid)
  }

  function HeartbeatBlk(me: Uuid, up: bool, b: Blk, m: Body, insertOk: bool): Blk
    requires m.Heartbeat?
  {
    var d := Heard(up, b, m, insertOk);
    if b.remote == 0 then MarkReady(me, d) else d
  }

  lemma HeardFrame(up: bool, b: Blk, m: Body, insertOk: bool)
    requires m.Heartbeat?
    ensures var d := Heard(up, b, m, insertOk);
            && d.id == b.id && d.dir == b.dir && d.ctrl == b.ctrl && d.rpc == b.rpc
            && d.ctrlUp == b.ctrlUp && d.rpcUp == b.rpcUp && d.ready == b.ready
            && d.remote == if b.remote == 0 then m.uuid else b.remote
  {
  }

  /** A heartbeat moves no socket, and makes a block READY only as it names it. */
  lemma HeartbeatFrame(me: Uuid, up: bool, b: Blk, m: Body, insertOk: bool)
    requires m.Heartbeat?
    ensures var c := HeartbeatBlk(me, up, b, m, insertOk);
            && c.id == b.id && c.dir == b.dir && c.ctrl == b.ctrl && c.rpc == b.rpc
            && c.remote == (if b.remote == 0 then m.uuid else b.remote)
            && (c.ready <==> b.ready || (b.remote == 0 && ReadyPending(b.(remote := m.uuid))))
  {
    HeardFrame(up, b, m, insertOk);
  }

  function HandleHeartbeat(me: Uuid, up: bool, n: Node, i: nat, m: Body, insertOk: bool): Outcome
    requires i < |n.table| && m.Heartbeat?
  {
    var b := n.table[i];
    var c := HeartbeatBlk(me, up, b, m, insertOk);
    var learned := b.remote == 0;
    Outcome(
      n.(table := n.table[i := c],
         events := n.events + if learned then ReadyEvent(b.(remote := m.uuid)) else []),
      if learned && up then Beat(me, up, c) else [],
      false)
  }

  /** Header check, then dispatch on the message type.  RPC bodies belong to the
      Python layer and leave the table alone. */
  function Process(me: Uuid, up: bool, n: Node, i: nat, f: Frame, insertOk: bool): Outcome
    requires i < |n.table|
  {
    if n.table[i].remote != 0 && n.table[i].remote != f.stamp then Outcome(n, [], true)
    else match f.body
      case Session(_, _, _, _) => HandleSession(me, up, n, i, f.body, insertOk)
      case Heartbeat(_, _) => HandleHeartbeat(me, up, n, i, f.body, insertOk)
      case Rpc => Outcome(n, [], false)
  }

  // ---------------------------------------------------------------- repeated messages

  /** A peer announces its fabric address; the insert may fail. */
  datatype Announcement = Announcement(addr: Uuid, insertOk: bool)

  predicate Takes(up: bool, a: Announcement) {
    up && a.addr != 0 && a.insertOk
  }

  function LearnAll(b: Blk, up: bool, heard: seq<Announcement>): Blk
    decreases |heard|
  {
    if heard == [] then b else LearnAll(Learn(b, heard[0].addr, up, heard[0].insertOk), up, heard[1..])
  }

  lemma {:induction false} LearnedKept(b: Blk, up: bool, heard: seq<Announcement>)
    requires b.addrValid
    ensures LearnAll(b, up, heard) == b
    decreases |heard|
  {
    if heard != [] { LearnedKept(b, up, heard[1..]); }
  }

  /** However often a peer announces an address, in session messages and
      heartbeats, the first that can be taken is taken and none replaces it. */
  lemma {:induction false} LearnFirst(b: Blk, up: bool, heard: seq<Announcement>, i: nat)
    requires !b.addrValid && i <= |heard|
    requires forall j :: 0 <= j < i ==> !Takes(up, heard[j])
    requires i < |heard| ==> Takes(up, heard[i])
    ensures LearnAll(b, up, heard) == if i < |heard| then b.(addrValid := true, ofiAddr := heard[i].addr) else b
    decreases |heard|
  {
    if heard != [] {
      if i == 0 {
        LearnedKept(Learn(b, heard[0].addr, up, heard[0].insertOk), up, heard[1..]);
      } else {
        assert Learn(b, heard[0].addr, up, heard[0].insertOk) == b;
        LearnFirst(b, up, heard[1..], i - 1);
      }
    }
  }

  /** A heartbeat, and whether inserting its address works. */
  datatype Beaten = Beaten(uuid: Uuid, addr: Uuid, insertOk: bool)

  /** A row of heartbeats on one block, and all that is sent in answer. */
  function HearAll(me: Uuid, up: bool, n: Node, i: nat, beats: seq<Beaten>): Outcome
    requires i < |n.table|
    decreases |beats|
  {
    if beats == [] then Outcome(n, [], false)
    else
      var o := HandleHeartbeat(me, up, n, i, Heartbeat(beats[0].uuid, beats[0].addr), beats[0].insertOk);
      var rest := HearAll(me, up, o.node, i, beats[1..]);
      Outcome(rest.node, o.sends + rest.sends, rest.fault)
  }

  /** What one heartbeat does to a block, besides what it learns. */
  lemma HeartbeatOnce(me: Uuid, up: bool, n: Node, i: nat, m: Body, insertOk: bool)
    requires i < |n.table| && m.Heartbeat?
    ensures var o := HandleHeartbeat(me, up, n, i, m, insertOk);
            var b := n.table[i];
            && |o.node.table| == |n.table| && !o.fault
            && o.node.table[i].remote == (if b.remote == 0 then m.uuid else b.remote)
            && o.sends == (if b.remote == 0 && up then Beat(me, up, b) else [])
            && o.node.events == n.events + (if b.remote == 0 then ReadyEvent(b.(remote := m.uuid)) else [])
  {
    HeartbeatFrame(me, up, n.table[i], m, insertOk);
  }

  lemma {:induction false} KnownPeerUnanswered(me: Uuid, up: bool, n: Node, i: nat, beats: seq<Beaten>)
    requires i < |n.table| && n.table[i].remote != 0
    ensures var o := HearAll(me, up, n, i, beats);
            o.sends == [] && o.node.events == n.events && !o.fault
    decreases |beats|
  {
    if beats != [] {
      var m := Heartbeat(beats[0].uuid, beats[0].addr);
      HeartbeatOnce(me, up, n, i, m, beats[0].insertOk);
      var d := HandleHeartbeat(me, up, n, i, m, beats[0].insertOk).node;
      assert d.events == n.events;
      KnownPeerUnanswered(me, up, d, i, beats[1..]);
    }
  }

  /** Heartbeats do not echo: of any number of heartbeats on a block that does not
      know its peer, the first is answered, and only by a process with a fabric
      endpoint; the rest are not. A block that knows its peer answers none. READY
      is reported with the first or not at all. */
  lemma HeartbeatsAnsweredOnce(me: Uuid, up: bool, n: Node, i: nat, beats: seq<Beaten>)
    requires i < |n.table| && beats != [] && beats[0].uuid != 0
    ensures var o := HearAll(me, up, n, i, beats);
            var b := n.table[i];
            && o.sends == (if b.remote == 0 && up then Beat(me, up, b) else [])
            && o.node.events == n.events + (if b.remote == 0 then ReadyEvent(b.(remote := beats[0].uuid)) else [])
            && !o.fault
  {
    var m := Heartbeat(beats[0].uuid, beats[0].addr);
    HeartbeatOnce(me, up, n, i, m, beats[0].insertOk);
    var o := HandleHeartbeat(me, up, n, i, m, beats[0].insertOk);
    KnownPeerUnanswered(me, up, o.node, i, beats[1..]);
    assert o.sends + [] == o.sends;
  }

  // ---------------------------------------------------------------- checks and closed sockets

  /** A message is refused, and then changes and sends nothing, exactly when it
      does not come from the peer the block names, or is a session message of the
      very block it names. Everything else is handled. */
  lemma RefusedIff(me: Uuid, up: bool, n: Node, i: nat, f: Frame, insertOk: bool)
    requires i < |n.table|
    ensures var o, b := Process(me, up, n, i, f, insertOk), n.table[i];
            && (o.fault <==>
                  || (b.remote != 0 && f.stamp != b.remote)
                  || (f.body.Session? && b.dir == Inbound && b.remote == f.body.uuid
                      && forall j :: 0 <= j < i ==> !(n.table[j].dir == Inbound && n.table[j].remote == b.remote)))
            && (o.fault ==> o.node == n && o.sends == [])
  {
    if f.body.Session? {
      var e := Find(n.table, Inbound, f.body.uuid);
      if e < i { assert n.table[e].dir == Inbound && n.table[e].remote == f.body.uuid; }
    }
  }

  /** The sockets a session message closes: both of the block that goes away, if
      it is past its handshake, and none otherwise. */
  lemma ClosedIff(me: Uuid, up: bool, n: Node, i: nat, m: Body, insertOk: bool, k: Sock)
    requires i < |n.table| && m.Session?
    ensures k in HandleSession(me, up, n, i, m, insertOk).node.closed <==>
            || k in n.closed
            || (&& !n.table[i].isNew && (n.table[i].ctrl == Some(k) || n.table[i].rpc == Some(k))
                && (exists j :: 0 <= j < |n.table| && n.table[j].dir == Inbound && n.table[j].remote == m.uuid)
                && !HandleSession(me, up, n, i, m, insertOk).fault)
  {
    var e := Find(n.table, Inbound, m.uuid);
    if e < |n.table| { assert n.table[e].dir == Inbound && n.table[e].remote == m.uuid; }
  }

  // ---------------------------------------------------------------- confluence

  /** A block without the uuid it was allocated with. */
  function Erase(b: Blk): Blk {
    b.(id := 0)
  }

  /** The merged block both arrival orders must build for a peer. */
  function Merged(me: Uuid, id: nat, c: Blk, r: Blk, m: Body, up: bool, ok: bool): Blk
    requires m.Session?
  {
    var valid := m.addr != 0 && up && ok;
    Blk(id, Inbound, m.uuid, Some(m.info), c.peerAddr, c.ctrl, r.ctrl,
        false, true, true, true, true, m.uuid != me, valid, if valid then m.addr else 0, false)
  }

  /** A block `accept` just created, still holding its one socket. */
  predicate Fresh(b: Blk) {
    b.ctrl.Some? && b == Accepted(b.id, b.ctrl.value, b.peerAddr)
  }

  /** The session message on the block at `i` is read first, the one on the
      block at `j` second. */
  function InOrder(me: Uuid, up: bool, n: Node, i: nat, j: nat, m1: Body, m2: Body, ok1: bool, ok2: bool): Outcome
    requires i < |n.table| && j < |n.table| && m1.Session? && m2.Session?
  {
    var o := HandleSession(me, up, n, i, m1, ok1);
    if o.fault || |o.node.table| <= j then o else HandleSession(me, up, o.node, j, m2, ok2)
  }

  /** The two temporary blocks of a pair, and a peer nobody has heard of yet. */
  predicate Arrivals(n: Node, i: nat, j: nat, m1: Body, m2: Body) {
    && i < |n.table| && j < |n.table| && i != j
    && m1.Session? && m2 == m1.(rpcSetup := !m1.rpcSetup) && m1.uuid != 0
    && Fresh(n.table[i]) && Fresh(n.table[j])
    && n.table[i].ctrl.value != n.table[j].ctrl.value
    && n.table[i].ctrl.value in n.sel && n.table[j].ctrl.value in n.sel
    && (forall k :: 0 <= k < |n.table| ==> !(n.table[k].dir == Inbound && n.table[k].remote == m1.uuid))
  }

  lemma FindUpdated(t: seq<Blk>, i: nat, b: Blk, u: Uuid)
    requires i < |t| && b.dir == Inbound && b.remote == u
    requires forall k :: 0 <= k < |t| ==> !(t[k].dir == Inbound && t[k].remote == u)
    ensures Find(t[i := b], Inbound, u) == i
  {
    assert t[i := b][i] == b;
  }

  /** Adopting one half and absorbing the other gives the merged block. */
  lemma PairMerges(me: Uuid, up: bool, a: Blk, b: Blk, m1: Body, m2: Body, ok1: bool, ok2: bool)
    requires Fresh(a) && Fresh(b)
    requires m1.Session? && m2 == m1.(rpcSetup := !m1.rpcSetup) && m1.uuid != 0
    ensures var c, r := if m1.rpcSetup then b else a, if m1.rpcSetup then a else b;
            var b2 := Learn(Absorb(Adopt(a, m1, up, ok1), b, m2), m2.addr, up, ok2);
            ReadyPending(b2) && b2.id == a.id && b2.ctrl == c.ctrl
            && MarkReady(me, b2) == Merged(me, a.id, c, r, m1, up, ok1 || ok2)
  {
  }

  lemma FirstAdopts(me: Uuid, up: bool, n: Node, i: nat, m: Body, ok: bool)
    requires i < |n.table| && m.Session?
    requires forall k :: 0 <= k < |n.table| ==> !(n.table[k].dir == Inbound && n.table[k].remote == m.uuid)
    ensures var b := Adopt(n.table[i], m, up, ok);
            && HandleSession(me, up, n, i, m, ok) ==
               Outcome(n.(table := n.table[i := b],
                          sel := if m.rpcSetup then n.sel - SockSet(n.table[i].ctrl) else n.sel), [], false)
            && Find(n.table[i := b], Inbound, m.uuid) == i
  {
    assert Find(n.table, Inbound, m.uuid) == |n.table|;
    FindUpdated(n.table, i, Adopt(n.table[i], m, up, ok), m.uuid);
  }

  lemma SecondAbsorbs(me: Uuid, up: bool, n: Node, i: nat, j: nat, m: Body, ok: bool)
    requires i < |n.table| && j < |n.table| && i != j && m.Session? && Find(n.table, Inbound, m.uuid) == i
    requires var b := Learn(Absorb(n.table[i], n.table[j], m), m.addr, up, ok);
             ReadyPending(b) && b.ctrl.Some? && n.table[j].isNew
    ensures var b := Learn(Absorb(n.table[i], n.table[j], m), m.addr, up, ok);
            var o := HandleSession(me, up, n, j, m, ok);
            && !o.fault && o.node.table == RemoveAt(n.table[i := MarkReady(me, b)], j)
            && o.node.sel == (if m.rpcSetup then n.sel else n.sel + SockSet(n.table[i].rpc))
            && o.node.events == n.events + [b.id] && o.node.closed == n.closed
            && o.sends == [(b.ctrl.value, Frame(me, Heartbeat(me, if up then me else 0)))]
  {
  }

  /** What the second session message of a pair does, whichever half it is:
      `first` has adopted the peer, the block at `j` still holds its socket. */
  lemma SecondSession(me: Uuid, up: bool, n: Node, i: nat, j: nat, m1: Body, m2: Body, ok1: bool, ok2: bool)
    requires Arrivals(n, i, j, m1, m2)
    ensures
      var c, r := if m1.rpcSetup then n.table[j] else n.table[i], if m1.rpcSetup then n.table[i] else n.table[j];
      var o := InOrder(me, up, n, i, j, m1, m2, ok1, ok2);
      && !o.fault
      && o.node.table == RemoveAt(n.table[i := Merged(me, n.table[i].id, c, r, m1, up, ok1 || ok2)], j)
      && o.node.sel == n.sel
      && o.node.events == n.events + [n.table[i].id]
      && o.node.closed == n.closed
      && o.sends == [(c.ctrl.value, Frame(me, Heartbeat(me, if up then me else 0)))]
  {
    var b1 := Adopt(n.table[i], m1, up, ok1);
    FirstAdopts(me, up, n, i, m1, ok1);
    var n1 := HandleSession(me, up, n, i, m1, ok1).node;
    PairMerges(me, up, n.table[i], n.table[j], m1, m2, ok1, ok2);
    SecondAbsorbs(me, up, n1, i, j, m2, ok2);
    var b2 := MarkReady(me, Learn(Absorb(b1, n.table[j], m2), m2.addr, up, ok2));
    assert n.table[i := b1][i := b2] == n.table[i := b2];
  }

  /** Both arrival orders end in one block that agrees in everything but the
      block uuid, with both sockets selectable, one PEER_READY, one heartbeat
      on the control socket, and nothing closed. */
  lemma SessionOrderIrrelevant(me: Uuid, up: bool, n: Node, i: nat, j: nat, mc: Body, mr: Body, ok1: bool, ok2: bool)
    requires Arrivals(n, i, j, mc, mr) && !mc.rpcSetup
    ensures
      var c, r := n.table[i], n.table[j];
      var a := InOrder(me, up, n, i, j, mc, mr, ok1, ok2);
      var b := InOrder(me, up, n, j, i, mr, mc, ok1, ok2);
      var ma := Merged(me, c.id, c, r, mc, up, ok1 || ok2);
      var mb := Merged(me, r.id, c, r, mc, up, ok1 || ok2);
      && !a.fault && !b.fault
      && a.node.table == RemoveAt(n.table[i := ma], j)
      && b.node.table == RemoveAt(n.table[j := mb], i)
      && Erase(ma) == Erase(mb)
      && a.node.sel == b.node.sel == n.sel
      && c.ctrl.value in a.node.sel && r.ctrl.value in a.node.sel
      && a.node.events == n.events + [c.id] && b.node.events == n.events + [r.id]
      && a.node.closed == b.node.closed == n.closed
      && a.sends == b.sends == [(c.ctrl.value, Frame(me, Heartbeat(me, if up then me else 0)))]
  {
    SecondSession(me, up, n, i, j, mc, mr, ok1, ok2);
    SecondSession(me, up, n, j, i, mr, mc, ok1, ok2);
  }
}

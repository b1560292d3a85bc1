/**
  The whole network: any number of processes, two FIFO sockets per ordered pair
  that connects, and a fabric that delivers RPC messages in any order relative
  to both.  A run is any sequence of enabled steps without a disconnect.
 */
module Fabric {
  import opened Common
  import opened Handshake

  /** Which processes run the fabric transport, and whether inserting a peer
      address into the address vector always succeeds. */
  datatype Config = Config(ofi: set<Uuid>, insertsOk: bool)

  /** One direction of a socket. */
  datatype Chan = Chan(sock: Sock, toAcceptor: bool)

  /** A message on the fabric: its header names only the sender's uuid. */
  datatype Letter = Letter(src: Uuid, dst: Uuid, len: nat)

  /** A letter and the uuid of the block it was dispatched to. */
  datatype Handled = Handled(letter: Letter, blk: nat)

  const HEADER_SIZE := 28
  const EAGER_BUFFER := 256 * 1024

  /** `accepted` and `consumed` record the sockets that were accepted and those
      whose session message has been read. */
  datatype State = State(
    nodes: map<Uuid, Node>,
    q: map<Chan, seq<Frame>>,
    dialed: set<Sock>,
    accepted: set<Sock>,
    consumed: set<Sock>,
    linked: set<(Uuid, Uuid)>,
    fabric: multiset<Letter>,
    handled: seq<Handled>,
    fault: bool)

  datatype Step =
    | OpenCtrl(x: Uuid, y: Uuid, info: PeerInfo)
    | OpenRpc(x: Uuid, y: Uuid, info: PeerInfo)
    | Link(x: Uuid, y: Uuid, id: nat, peerAddr: nat)
    | ReportOut(n: Uuid, i: nat)
    | Accept(k: Sock, id: nat, peerAddr: nat)
    | Receive(n: Uuid, i: nat, rpcHalf: bool, insertOk: bool)
    | SendBeat(n: Uuid, i: nat)
    | SendRpc(n: Uuid, i: nat, len: nat)
    | Deliver(letter: Letter)

  const Start := State(map[], map[], {}, {}, {}, {}, multiset{}, [], false)

  function NodeOf(s: State, n: Uuid): Node {
    if n in s.nodes then s.nodes[n] else Node([], {}, [], {})
  }

  function Q(s: State, c: Chan): seq<Frame> {
    if c in s.q then s.q[c] else []
  }

  function SetNode(s: State, n: Uuid, d: Node): State {
    s.(nodes := s.nodes[n := d])
  }

  function Push(s: State, c: Chan, f: Frame): State {
    s.(q := s.q[c := Q(s, c) + [f]])
  }

  function Pop(s: State, c: Chan): State
    requires Q(s, c) != []
  {
    s.(q := s.q[c := Q(s, c)[1..]])
  }

  function Sender(c: Chan): Uuid {
    if c.toAcceptor then c.sock.connector else c.sock.acceptor
  }

  function Receiver(c: Chan): Uuid {
    if c.toAcceptor then c.sock.acceptor else c.sock.connector
  }

  /** The channels process `n` writes to and reads from on socket `k`. */
  function Out(n: Uuid, k: Sock): Chan { Chan(k, n == k.connector) }
  function In(n: Uuid, k: Sock): Chan { Chan(k, n == k.acceptor) }

  function Addr(cfg: Config, n: Uuid): Uuid {
    if n in cfg.ofi then n else 0
  }

  function SendAll(s: State, n: Uuid, sends: seq<(Sock, Frame)>): State
    decreases |sends|
  {
    if sends == [] then s
    else SendAll(Push(s, Out(n, sends[0].0), sends[0].1), n, sends[1..])
  }

  function Half(b: Blk, rpcHalf: bool): Option<Sock> {
    if rpcHalf then b.rpc else b.ctrl
  }

  predicate Enabled(cfg: Config, s: State, t: Step) {
    match t
    case OpenCtrl(x, y, _) => x != 0 && y != 0 && x != y && Sock(x, y, false) !in s.dialed
    case OpenRpc(x, y, _) => Sock(x, y, false) in s.dialed && Sock(x, y, true) !in s.dialed
    case Link(x, y, _, _) => Sock(x, y, false) in s.dialed && Sock(x, y, true) in s.dialed && (x, y) !in s.linked
    case ReportOut(n, i) => i < |NodeOf(s, n).table| && NodeOf(s, n).table[i].dir == Outbound
    case Accept(k, _, _) => k in s.dialed && k !in s.accepted
    case Receive(n, i, rpcHalf, insertOk) =>
      && (cfg.insertsOk ==> insertOk)
      && i < |NodeOf(s, n).table|
      && var h := Half(NodeOf(s, n).table[i], rpcHalf);
         h.Some? && h.value in NodeOf(s, n).sel && Q(s, In(n, h.value)) != []
    case SendBeat(n, i) =>
      i < |NodeOf(s, n).table| && NodeOf(s, n).table[i].hbRemote && NodeOf(s, n).table[i].ctrl.Some?
    case SendRpc(n, i, _) =>
      && i < |NodeOf(s, n).table|
      && NodeOf(s, n).table[i].remote != 0 && NodeOf(s, n).table[i].rpcUp && NodeOf(s, n).table[i].rpc.Some?
    case Deliver(l) => l in s.fabric
  }

  /** A session message opens each socket and carries the sender's address. */
  function Open(cfg: Config, s: State, k: Sock, info: PeerInfo): State {
    Push(s.(dialed := s.dialed + {k}), Chan(k, true),
         Frame(k.connector, Session(k.connector, k.rpc, Addr(cfg, k.connector), info)))
  }

  /** The listener reads one frame on a selected socket of the block at `i`. */
  function Read(cfg: Config, s: State, n: Uuid, i: nat, k: Sock, insertOk: bool): State
    requires i < |NodeOf(s, n).table| && Q(s, In(n, k)) != []
  {
    var f := Q(s, In(n, k))[0];
    var o := Process(n, n in cfg.ofi, NodeOf(s, n), i, f, insertOk);
    var p := Pop(s, In(n, k));
    var c := if f.body.Session? then p.(consumed := p.consumed + {k}) else p;
    SendAll(SetNode(c, n, o.node).(fault := s.fault || o.fault), n, o.sends)
  }

  /** RPC traffic takes the fabric once the peer is ready for it, and TCP before
      that or when the message exceeds the eager buffer. */
  function Route(cfg: Config, s: State, n: Uuid, b: Blk, len: nat): State
    requires b.rpc.Some?
  {
    if n in cfg.ofi && b.ofiReady && HEADER_SIZE + len <= EAGER_BUFFER then
      s.(fabric := s.fabric + multiset{Letter(n, b.ofiAddr, len)})
    else Push(s, Out(n, b.rpc.value), Frame(n, Rpc))
  }

  function Next(cfg: Config, s: State, t: Step): State
    requires Enabled(cfg, s, t)
  {
    match t
    case OpenCtrl(x, y, info) => Open(cfg, s, Sock(x, y, false), info)
    case OpenRpc(x, y, info) => Open(cfg, s, Sock(x, y, true), info)
    case Link(x, y, id, peerAddr) =>
      var d := NodeOf(s, x);
      SetNode(s, x, d.(table := d.table + [Connected(id, x, y, peerAddr)],
                       sel := d.sel + {Sock(x, y, false), Sock(x, y, true)})).(linked := s.linked + {(x, y)})
    case ReportOut(n, i) =>
      var d := NodeOf(s, n);
      SetNode(s, n, d.(table := d.table[i := MarkReady(n, d.table[i])], events := d.events + ReadyEvent(d.table[i])))
    case Accept(k, id, peerAddr) =>
      SetNode(s, k.acceptor, HandleAccept(NodeOf(s, k.acceptor), id, k, peerAddr)).(accepted := s.accepted + {k})
    case Receive(n, i, rpcHalf, insertOk) =>
      var b := NodeOf(s, n).table[i];
      if b.isNew && rpcHalf then s.(fault := true)      // unexpected-new-agent-rpc
      else Read(cfg, s, n, i, Half(b, rpcHalf).value, insertOk)
    case SendBeat(n, i) => SendAll(s, n, Beat(n, n in cfg.ofi, NodeOf(s, n).table[i]))
    case SendRpc(n, i, len) => Route(cfg, s, n, NodeOf(s, n).table[i], len)
    case Deliver(l) =>
      // a sender the table cannot name: the message is dropped
      var t := NodeOf(s, l.dst).table;
      var e := FindGlobal(t, l.src);
      s.(fabric := s.fabric - multiset{l}, fault := s.fault || e == |t|,
         handled := s.handled + if e < |t| then [Handled(l, t[e].id)] else [])
  }

  /** States some run reaches. */
  predicate Run(cfg: Config, s: State, steps: seq<Step>, s': State)
    decreases |steps|
  {
    if steps == [] then s == s'
    else Enabled(cfg, s, steps[0]) && Run(cfg, Next(cfg, s, steps[0]), steps[1..], s')
  }

  /** A connection comes from an address no live block of the acceptor has. */
  predicate AddressFree(s: State, t: Step) {
    t.Accept? ==> var table := NodeOf(s, t.k.acceptor).table; FindAlive(table, t.peerAddr) == |table|
  }

  /** Every connection of a run does. */
  predicate AddressesFree(cfg: Config, s: State, steps: seq<Step>)
    decreases |steps|
  {
    steps == [] ||
    (Enabled(cfg, s, steps[0]) && AddressFree(s, steps[0]) && AddressesFree(cfg, Next(cfg, s, steps[0]), steps[1..]))
  }

  // ---------------------------------------------------------------- invariant

  /** Process `w` has a block on the connection of control socket `k` that names `p`. */
  ghost predicate Names(s: State, w: Uuid, p: Uuid, k: Sock) {
    p != 0 && exists b :: b in NodeOf(s, w).table && b.remote == p && b.ctrl == Some(k)
  }

  ghost predicate OutboundOk(s: State, n: Uuid, b: Blk, sel: set<Sock>) {
    && b.ctrl.Some? && b.rpc.Some?
    && b.ctrl.value.connector == n && !b.ctrl.value.rpc
    && b.ctrl.value.acceptor != n && b.ctrl.value.acceptor != 0
    && b.rpc.value == b.ctrl.value.(rpc := true)
    && b.ctrl.value in s.dialed && b.rpc.value in s.dialed
    && (b.remote == 0 || b.remote == b.ctrl.value.acceptor)
    && !b.isNew && b.ctrlUp && b.rpcUp
    && (b.ready <==> b.remote != 0)
    && b.ctrl.value in sel && b.rpc.value in sel
  }

  ghost predicate TemporaryOk(s: State, n: Uuid, b: Blk, sel: set<Sock>) {
    && b.ctrl.Some? && Fresh(b)
    && b.ctrl.value.acceptor == n && b.ctrl.value.connector != n && b.ctrl.value.connector != 0
    && b.ctrl.value in s.accepted && b.ctrl.value !in s.consumed
    && b.ctrl.value in sel
  }

  ghost predicate InboundOk(s: State, n: Uuid, b: Blk, sel: set<Sock>) {
    && b.remote != n && (b.ctrl.Some? || b.rpc.Some?)
    && (b.ctrl.Some? ==> b.ctrl.value == Sock(b.remote, n, false) && b.ctrl.value in s.consumed && b.ctrl.value in sel)
    && (b.rpc.Some? ==> b.rpc.value == Sock(b.remote, n, true) && b.rpc.value in s.consumed)
    && b.ctrlUp == b.alive == b.ctrl.Some? && b.rpcUp == b.rpc.Some? && b.isNew == b.ctrl.None?
    && (b.rpc.Some? ==> (b.rpc.value in sel <==> !b.isNew))
    && (b.ready <==> b.ctrlUp && b.rpcUp)
  }

  ghost predicate ShapeOk(s: State, n: Uuid, b: Blk, sel: set<Sock>) {
    if b.dir == Outbound then OutboundOk(s, n, b, sel)
    else if b.remote == 0 then TemporaryOk(s, n, b, sel)
    else InboundOk(s, n, b, sel)
  }

  ghost predicate AddressOk(cfg: Config, s: State, n: Uuid, b: Blk) {
    && (b.hbRemote ==> b.ready)
    && (b.addrValid ==> b.remote != 0 && b.ofiAddr == b.remote)
    && (b.ofiReady ==> b.addrValid && b.ctrl.Some? && Names(s, b.remote, n, b.ctrl.value))
    && (cfg.insertsOk && b.remote != 0 && b.remote in cfg.ofi && n in cfg.ofi ==> b.addrValid)
  }

  /** Two inbound blocks never stand for the same peer or hold the same socket. */
  ghost predicate Apart(a: Blk, b: Blk) {
    a.dir == Inbound && b.dir == Inbound ==>
      a.remote != b.remote || (a.remote == 0 && a.ctrl != b.ctrl)
  }

  ghost predicate TableOk(cfg: Config, s: State, n: Uuid) {
    var d := NodeOf(s, n);
    && (forall b :: b in d.table ==> ShapeOk(s, n, b, d.sel) && AddressOk(cfg, s, n, b))
    && (forall i, j :: 0 <= i < j < |d.table| ==> Apart(d.table[i], d.table[j]))
  }

  ghost predicate Plain(cfg: Config, s: State, c: Chan, f: Frame) {
    && f.stamp == Sender(c)
    && !f.body.Session?
    && (f.body.Heartbeat? ==>
          && !c.sock.rpc
          && f.body == Heartbeat(Sender(c), Addr(cfg, Sender(c)))
          && Names(s, Sender(c), Receiver(c), c.sock))
  }

  ghost predicate Hello(cfg: Config, k: Sock, f: Frame) {
    && f.stamp == k.connector && f.body.Session?
    && f.body == Session(k.connector, k.rpc, Addr(cfg, k.connector), f.body.info)
  }

  ghost predicate QueueOk(cfg: Config, s: State, c: Chan) {
    var q := Q(s, c);
    && (c.sock !in s.dialed ==> q == [])
    && (c.toAcceptor && c.sock in s.dialed && c.sock !in s.consumed ==>
          q != [] && Hello(cfg, c.sock, q[0]) && forall f :: f in q[1..] ==> Plain(cfg, s, c, f))
    && (!(c.toAcceptor && c.sock !in s.consumed) ==> forall f :: f in q ==> Plain(cfg, s, c, f))
  }

  ghost predicate SocksOk(s: State) {
    && s.consumed <= s.accepted <= s.dialed
    && (forall k :: k in s.dialed ==> k.connector != k.acceptor && k.connector != 0 && k.acceptor != 0)
  }

  /** A letter's receiver can name its sender, and has room for it. */
  ghost predicate LetterOk(s: State, l: Letter) {
    l.src != 0 && HEADER_SIZE + l.len <= EAGER_BUFFER && exists b :: b in NodeOf(s, l.dst).table && b.remote == l.src
  }

  ghost predicate Inv(cfg: Config, s: State) {
    && !s.fault
    && SocksOk(s)
    && (forall n :: TableOk(cfg, s, n))
    && (forall c :: QueueOk(cfg, s, c))
    && (forall l :: l in s.fabric ==> LetterOk(s, l))
  }

  // ---------------------------------------------------------------- frames

  /** Nothing a process knew is forgotten. */
  ghost predicate Grows(s: State, s': State) {
    && s.consumed <= s'.consumed && s.accepted <= s'.accepted && s.dialed <= s'.dialed
    && (forall w, p, k :: Names(s, w, p, k) ==> Names(s', w, p, k))
  }

  lemma BlockKept(cfg: Config, s: State, s': State, n: Uuid, b: Blk, sel: set<Sock>)
    requires ShapeOk(s, n, b, sel) && AddressOk(cfg, s, n, b) && Grows(s, s')
    requires b.dir == Inbound && b.remote == 0 ==> b.ctrl.value !in s'.consumed
    ensures ShapeOk(s', n, b, sel) && AddressOk(cfg, s', n, b)
  {
  }

  /** Processes other than `n` are untouched by a step at `n`. */
  lemma OthersKept(cfg: Config, s: State, s': State, n: Uuid)
    requires Inv(cfg, s) && Grows(s, s')
    requires forall m :: m != n ==> NodeOf(s', m) == NodeOf(s, m)
    requires forall k :: k in s'.consumed && k !in s.consumed ==> k.acceptor == n
    ensures forall m :: m != n ==> TableOk(cfg, s', m)
  {
    forall m | m != n ensures TableOk(cfg, s', m) {
      assert TableOk(cfg, s, m);
      forall b | b in NodeOf(s', m).table
        ensures ShapeOk(s', m, b, NodeOf(s', m).sel) && AddressOk(cfg, s', m, b)
      {
        BlockKept(cfg, s, s', m, b, NodeOf(s', m).sel);
      }
    }
  }

  lemma QueueKept(cfg: Config, s: State, s': State, c: Chan)
    requires QueueOk(cfg, s, c) && Grows(s, s')
    requires Q(s', c) == Q(s, c)
    requires c.sock in s'.consumed <==> c.sock in s.consumed
    requires c.sock in s'.dialed <==> c.sock in s.dialed
    ensures QueueOk(cfg, s', c)
  {
    assert forall f :: Plain(cfg, s, c, f) ==> Plain(cfg, s', c, f);
  }

  /** A step that changes no table keeps them all. */
  lemma TablesKept(cfg: Config, s: State, s': State)
    requires Inv(cfg, s) && s'.nodes == s.nodes
    requires s'.consumed == s.consumed && s.accepted <= s'.accepted && s.dialed <= s'.dialed
    ensures Grows(s, s')
    ensures forall n :: TableOk(cfg, s', n)
  {
    assert forall w, p, k :: Names(s', w, p, k) == Names(s, w, p, k);
    OthersKept(cfg, s, s', 0);
    OthersKept(cfg, s, s', 1);
  }

  // ---------------------------------------------------------------- single updates

  lemma PushInv(cfg: Config, s: State, c: Chan, f: Frame)
    requires Inv(cfg, s) && c.sock in s.dialed && Plain(cfg, s, c, f)
    ensures Inv(cfg, Push(s, c, f))
  {
    var s' := Push(s, c, f);
    TablesKept(cfg, s, s');
    forall e ensures QueueOk(cfg, s', e) {
      assert QueueOk(cfg, s, e);
      if e != c {
        QueueKept(cfg, s, s', e);
      } else {
        assert Q(s', c) == Q(s, c) + [f];
        assert Q(s, c) != [] ==> (Q(s, c) + [f])[1..] == Q(s, c)[1..] + [f];
        assert forall g :: Plain(cfg, s, c, g) ==> Plain(cfg, s', c, g);
      }
    }
    assert forall l :: LetterOk(s, l) ==> LetterOk(s', l);
  }

  lemma PopInv(cfg: Config, s: State, c: Chan)
    requires Inv(cfg, s) && Q(s, c) != [] && !(c.toAcceptor && c.sock !in s.consumed)
    ensures Inv(cfg, Pop(s, c))
  {
    var s' := Pop(s, c);
    TablesKept(cfg, s, s');
    forall e ensures QueueOk(cfg, s', e) {
      assert QueueOk(cfg, s, e);
      if e != c {
        QueueKept(cfg, s, s', e);
      } else {
        assert forall g :: Plain(cfg, s, c, g) ==> Plain(cfg, s', c, g);
      }
    }
    assert forall l :: LetterOk(s, l) ==> LetterOk(s', l);
  }

  /** Opening a socket puts its session message first. */
  lemma OpenInv(cfg: Config, s: State, k: Sock, info: PeerInfo)
    requires Inv(cfg, s) && k !in s.dialed && k.connector != k.acceptor && k.connector != 0 && k.acceptor != 0
    ensures Inv(cfg, Open(cfg, s, k, info))
  {
    var s' := Open(cfg, s, k, info);
    TablesKept(cfg, s, s');
    forall e ensures QueueOk(cfg, s', e) {
      assert QueueOk(cfg, s, e);
      if e.sock != k {
        QueueKept(cfg, s, s', e);
      }
    }
    assert forall l :: LetterOk(s, l) ==> LetterOk(s', l);
  }

  /** A block changes in place: it keeps its sockets, and at most learns a name. */
  ghost predicate Refines(b: Blk, c: Blk) {
    && c.dir == b.dir && c.ctrl == b.ctrl
    && (c.remote == b.remote || (b.dir == Outbound && b.remote == 0))
  }

  lemma SwapMembers(t: seq<Blk>, i: nat, c: Blk)
    requires i < |t|
    ensures c in t[i := c]
    ensures forall b :: b in t && b != t[i] ==> b in t[i := c]
    ensures forall b :: b in t[i := c] ==> b == c || b in t
  {
    assert t[i := c][i] == c;
    forall b | b in t && b != t[i] ensures b in t[i := c] {
      var j :| 0 <= j < |t| && t[j] == b;
      assert t[i := c][j] == b;
    }
  }

  /** A block changed in place still names whom it named. */
  lemma SwapNames(s: State, s': State, n: Uuid, i: nat, c: Blk)
    requires i < |NodeOf(s, n).table| && Refines(NodeOf(s, n).table[i], c)
    requires NodeOf(s', n).table == NodeOf(s, n).table[i := c] && forall m :: m != n ==> NodeOf(s', m) == NodeOf(s, m)
    ensures forall w, p, k :: Names(s, w, p, k) ==> Names(s', w, p, k)
    ensures forall l :: LetterOk(s, l) ==> LetterOk(s', l)
  {
    var t := NodeOf(s, n).table;
    SwapMembers(t, i, c);
    forall w, p, k | Names(s, w, p, k) ensures Names(s', w, p, k) {
      var b :| b in NodeOf(s, w).table && b.remote == p && b.ctrl == Some(k);
      assert b in NodeOf(s', w).table || (w == n && b == t[i] && c in NodeOf(s', w).table);
    }
    forall l | LetterOk(s, l) ensures LetterOk(s', l) {
      var b :| b in NodeOf(s, l.dst).table && b.remote == l.src;
      assert b in NodeOf(s', l.dst).table || (l.dst == n && b == t[i] && c in NodeOf(s', n).table);
    }
  }

  lemma SwapApart(t: seq<Blk>, i: nat, c: Blk, t': seq<Blk>)
    requires i < |t| && t' == t[i := c] && Refines(t[i], c)
    requires forall x, y :: 0 <= x < y < |t| ==> Apart(t[x], t[y])
    ensures forall x, y :: 0 <= x < y < |t'| ==> Apart(t'[x], t'[y])
  {
    forall x, y | 0 <= x < y < |t'| ensures Apart(t'[x], t'[y]) {
      assert Apart(t[x], t[y]);
    }
  }

  lemma SwapInv(cfg: Config, s: State, n: Uuid, i: nat, c: Blk, events: seq<nat>)
    requires Inv(cfg, s) && i < |NodeOf(s, n).table|
    requires Refines(NodeOf(s, n).table[i], c)
    requires ShapeOk(s, n, c, NodeOf(s, n).sel) && AddressOk(cfg, s, n, c)
    ensures var d := NodeOf(s, n);
            Inv(cfg, SetNode(s, n, d.(table := d.table[i := c], events := events)))
  {
    var d := NodeOf(s, n);
    var s' := SetNode(s, n, d.(table := d.table[i := c], events := events));
    assert TableOk(cfg, s, n);
    SwapNames(s, s', n, i, c);
    OthersKept(cfg, s, s', n);
    SwapMembers(d.table, i, c);
    forall b | b in d.table[i := c] ensures ShapeOk(s', n, b, d.sel) && AddressOk(cfg, s', n, b) {
      BlockKept(cfg, s, s', n, b, d.sel);
    }
    SwapApart(d.table, i, c, d.table[i := c]);
    forall e ensures QueueOk(cfg, s', e) {
      assert QueueOk(cfg, s, e);
      QueueKept(cfg, s, s', e);
    }
  }

  lemma AppendInv(cfg: Config, s: State, s': State, n: Uuid, b: Blk, more: set<Sock>)
    requires Inv(cfg, s)
    requires var d := NodeOf(s, n);
             s'.nodes == s.nodes[n := d.(table := d.table + [b], sel := d.sel + more)]
    requires s'.q == s.q && s'.consumed == s.consumed && s'.dialed == s.dialed && s'.fabric == s.fabric && !s'.fault
    requires s.accepted <= s'.accepted <= s.dialed
    requires forall k :: k in more && k.acceptor == n ==> k !in s.consumed
    requires ShapeOk(s', n, b, NodeOf(s', n).sel) && AddressOk(cfg, s', n, b)
    requires forall a :: a in NodeOf(s, n).table ==> Apart(a, b)
    ensures Inv(cfg, s')
  {
    var d := NodeOf(s, n);
    var t := d.table + [b];
    assert NodeOf(s', n).table == t;
    forall w, p, k | Names(s, w, p, k) ensures Names(s', w, p, k) {
      var a :| a in NodeOf(s, w).table && a.remote == p && a.ctrl == Some(k);
      assert a in NodeOf(s', w).table;
    }
    OthersKept(cfg, s, s', n);
    assert TableOk(cfg, s, n);
    forall a | a in t ensures ShapeOk(s', n, a, NodeOf(s', n).sel) && AddressOk(cfg, s', n, a) {
      if a in d.table { BlockKept(cfg, s, s', n, a, d.sel); }
    }
    forall i, j | 0 <= i < j < |t| ensures Apart(t[i], t[j]) {
      if j < |d.table| {} else { assert t[i] in d.table; }
    }
    forall e ensures QueueOk(cfg, s', e) {
      assert QueueOk(cfg, s, e);
      QueueKept(cfg, s, s', e);
    }
    forall l | LetterOk(s, l) ensures LetterOk(s', l) {
      var a :| a in NodeOf(s, l.dst).table && a.remote == l.src;
      assert a in NodeOf(s', l.dst).table;
    }
  }

  // ---------------------------------------------------------------- session messages

  /** The state after the session message of socket `k` was read and the node
      became `d`. */
  function Consume(s: State, n: Uuid, k: Sock, d: Node): State
    requires Q(s, Chan(k, true)) != []
  {
    var p := Pop(s, Chan(k, true));
    SetNode(p.(consumed := p.consumed + {k}), n, d)
  }

  lemma ConsumeInv(cfg: Config, s: State, n: Uuid, k: Sock, d: Node)
    requires Inv(cfg, s) && k.acceptor == n && k in s.accepted && k !in s.consumed
    requires Q(s, Chan(k, true)) != []
    requires forall b :: b in d.table ==> ShapeOk(Consume(s, n, k, d), n, b, d.sel) && AddressOk(cfg, s, n, b)
    requires forall i, j :: 0 <= i < j < |d.table| ==> Apart(d.table[i], d.table[j])
    requires forall b :: b in NodeOf(s, n).table && b.remote != 0 ==>
               exists c :: c in d.table && c.remote == b.remote && (b.ctrl.Some? ==> c.ctrl == b.ctrl)
    ensures Inv(cfg, Consume(s, n, k, d))
  {
    var s' := Consume(s, n, k, d);
    forall w, p, l | Names(s, w, p, l) ensures Names(s', w, p, l) {
      var b :| b in NodeOf(s, w).table && b.remote == p && b.ctrl == Some(l);
      if w == n {
        var c :| c in d.table && c.remote == b.remote && (b.ctrl.Some? ==> c.ctrl == b.ctrl);
        assert c in NodeOf(s', n).table;
      } else {
        assert b in NodeOf(s', w).table;
      }
    }
    OthersKept(cfg, s, s', n);
    assert TableOk(cfg, s', n);
    forall e ensures QueueOk(cfg, s', e) {
      assert QueueOk(cfg, s, e);
      if e.sock != k {
        QueueKept(cfg, s, s', e);
      } else {
        assert forall g :: Plain(cfg, s, e, g) ==> Plain(cfg, s', e, g);
      }
    }
    forall l | LetterOk(s, l) ensures LetterOk(s', l) {
      var b :| b in NodeOf(s, l.dst).table && b.remote == l.src;
      if l.dst == n {
        var c :| c in d.table && c.remote == b.remote && (b.ctrl.Some? ==> c.ctrl == b.ctrl);
      } else {
        assert b in NodeOf(s', l.dst).table;
      }
    }
  }

  /** The block at `i` still waits for the session message of its socket. */
  ghost predicate Waiting(cfg: Config, s: State, n: Uuid, i: nat) {
    && Inv(cfg, s) && i < |NodeOf(s, n).table|
    && NodeOf(s, n).table[i].dir == Inbound && NodeOf(s, n).table[i].remote == 0
  }

  /** Its socket belongs to no other block. */
  lemma SockHeldOnce(cfg: Config, s: State, n: Uuid, i: nat, j: nat)
    requires Waiting(cfg, s, n, i) && j < |NodeOf(s, n).table| && i != j
    ensures NodeOf(s, n).table[i].ctrl.Some?
    ensures NodeOf(s, n).table[j].ctrl != NodeOf(s, n).table[i].ctrl
    ensures NodeOf(s, n).table[j].rpc != NodeOf(s, n).table[i].ctrl
  {
    var t := NodeOf(s, n).table;
    assert TableOk(cfg, s, n);
    assert t[i] in t && t[j] in t;
    assert ShapeOk(s, n, t[i], NodeOf(s, n).sel) && ShapeOk(s, n, t[j], NodeOf(s, n).sel);
    if i < j { assert Apart(t[i], t[j]); } else { assert Apart(t[j], t[i]); }
  }

  lemma WaitingFacts(cfg: Config, s: State, n: Uuid, i: nat)
    requires Waiting(cfg, s, n, i)
    ensures var a := NodeOf(s, n).table[i];
            && TemporaryOk(s, n, a, NodeOf(s, n).sel)
            && Q(s, Chan(a.ctrl.value, true)) != []
            && Hello(cfg, a.ctrl.value, Q(s, Chan(a.ctrl.value, true))[0])
  {
    var a := NodeOf(s, n).table[i];
    assert TableOk(cfg, s, n) && a in NodeOf(s, n).table;
    assert QueueOk(cfg, s, Chan(a.ctrl.value, true));
  }

  /** A temporary block becomes the first for its peer. */
  lemma AdoptTable(t: seq<Blk>, i: nat, b: Blk, p: Uuid, t': seq<Blk>)
    requires i < |t| && t' == t[i := b] && t[i].remote == 0 && Find(t, Inbound, p) == |t|
             && b.dir == Inbound && b.remote == p != 0
    requires forall x, y :: 0 <= x < y < |t| ==> Apart(t[x], t[y])
    ensures forall x, y :: 0 <= x < y < |t'| ==> Apart(t'[x], t'[y])
    ensures forall c :: c in t && c.remote != 0 ==>
              exists e :: e in t' && e.remote == c.remote && (c.ctrl.Some? ==> e.ctrl == c.ctrl)
  {
    forall x, y | 0 <= x < y < |t'| ensures Apart(t'[x], t'[y]) {
      assert Apart(t[x], t[y]);
    }
    SwapMembers(t, i, b);
  }

  /** What the temporary block at `i` turns into. */
  lemma AdoptedShape(cfg: Config, s: State, n: Uuid, a: Blk, m: Body, insertOk: bool, s': State, sel: set<Sock>)
    requires TemporaryOk(s, n, a, NodeOf(s, n).sel) && (cfg.insertsOk ==> insertOk) && m.Session?
    requires m == Session(a.ctrl.value.connector, a.ctrl.value.rpc, Addr(cfg, a.ctrl.value.connector), m.info)
    requires sel == if m.rpcSetup then NodeOf(s, n).sel - SockSet(a.ctrl) else NodeOf(s, n).sel
    requires a.ctrl.value in s'.consumed
    ensures var b := Adopt(a, m, n in cfg.ofi, insertOk);
            && ShapeOk(s', n, b, sel) && AddressOk(cfg, s, n, b)
            && b.dir == Inbound && b.remote == a.ctrl.value.connector != 0
  {
  }

  /** The other blocks do not notice. */
  lemma AdoptNeighbour(cfg: Config, s: State, n: Uuid, i: nat, j: nat, s': State, sel: set<Sock>)
    requires Waiting(cfg, s, n, i) && j < |NodeOf(s, n).table| && j != i
    requires NodeOf(s, n).table[i].ctrl.Some?
    requires s'.consumed == s.consumed + {NodeOf(s, n).table[i].ctrl.value}
    requires s'.accepted == s.accepted && s'.dialed == s.dialed
    requires sel == NodeOf(s, n).sel || sel == NodeOf(s, n).sel - {NodeOf(s, n).table[i].ctrl.value}
    ensures ShapeOk(s', n, NodeOf(s, n).table[j], sel) && AddressOk(cfg, s, n, NodeOf(s, n).table[j])
  {
    var t := NodeOf(s, n).table;
    assert TableOk(cfg, s, n);
    SockHeldOnce(cfg, s, n, i, j);
    assert t[j] in t;
    assert ShapeOk(s, n, t[j], NodeOf(s, n).sel);
  }

  lemma AdoptInv(cfg: Config, s: State, n: Uuid, i: nat, insertOk: bool)
    requires Waiting(cfg, s, n, i) && (cfg.insertsOk ==> insertOk)
    requires var d := NodeOf(s, n); d.table[i].ctrl.Some?
    requires var d := NodeOf(s, n); Q(s, Chan(d.table[i].ctrl.value, true)) != []
    requires var d := NodeOf(s, n); Hello(cfg, d.table[i].ctrl.value, Q(s, Chan(d.table[i].ctrl.value, true))[0])
    requires var d := NodeOf(s, n); Find(d.table, Inbound, d.table[i].ctrl.value.connector) == |d.table|
    ensures var d := NodeOf(s, n);
            var k := d.table[i].ctrl.value;
            var o := HandleSession(n, n in cfg.ofi, d, i, Q(s, Chan(k, true))[0].body, insertOk);
            !o.fault && o.sends == [] && Inv(cfg, Consume(s, n, k, o.node))
  {
    var d := NodeOf(s, n);
    var a := d.table[i];
    var k := a.ctrl.value;
    var m := Q(s, Chan(k, true))[0].body;
    var o := HandleSession(n, n in cfg.ofi, d, i, m, insertOk);
    var s' := Consume(s, n, k, o.node);
    WaitingFacts(cfg, s, n, i);
    var t := o.node.table;
    var b := Adopt(a, m, n in cfg.ofi, insertOk);
    assert t == d.table[i := b];
    AdoptedShape(cfg, s, n, a, m, insertOk, s', o.node.sel);
    forall c | c in t ensures ShapeOk(s', n, c, o.node.sel) && AddressOk(cfg, s, n, c) {
      var j :| 0 <= j < |t| && t[j] == c;
      if j != i { AdoptNeighbour(cfg, s, n, i, j, s', o.node.sel); }
    }
    assert TableOk(cfg, s, n);
    AdoptTable(d.table, i, b, k.connector, t);
    ConsumeInv(cfg, s, n, k, o.node);
  }

  lemma BeatInv(cfg: Config, s: State, n: Uuid, b: Blk)
    requires Inv(cfg, s) && b in NodeOf(s, n).table && b.remote != 0
    ensures Inv(cfg, SendAll(s, n, Beat(n, n in cfg.ofi, b)))
  {
    assert TableOk(cfg, s, n);
    if b.ctrl.Some? {
      var c := Out(n, b.ctrl.value);
      assert Names(s, n, b.remote, b.ctrl.value);
      var f := Frame(n, Heartbeat(n, Addr(cfg, n)));
      assert Beat(n, n in cfg.ofi, b) == [(b.ctrl.value, f)];
      assert SendAll(s, n, Beat(n, n in cfg.ofi, b)) == SendAll(Push(s, c, f), n, []);
      DialedSock(cfg, s, n, b);
      PushInv(cfg, s, c, f);
    }
  }

  /** A block that names its peer holds only sockets that were opened. */
  lemma DialedSock(cfg: Config, s: State, n: Uuid, b: Blk)
    requires Inv(cfg, s) && b in NodeOf(s, n).table && b.remote != 0
    ensures b.ctrl.Some? ==> b.ctrl.value in s.dialed
    ensures b.rpc.Some? ==> b.rpc.value in s.dialed
  {
    assert TableOk(cfg, s, n);
  }

  /** What the existing block becomes when it takes over the socket of the
      temporary block at `i`. */
  function MergedBlk(cfg: Config, s: State, n: Uuid, i: nat, e: nat, m: Body, insertOk: bool): Blk
    requires i < |NodeOf(s, n).table| && e < |NodeOf(s, n).table| && m.Session?
  {
    var t := NodeOf(s, n).table;
    MarkReady(n, Learn(Absorb(t[e], t[i], m), m.addr, n in cfg.ofi, insertOk))
  }

  /** A session message arrives for a peer the block at `e` already stands for. */
  ghost predicate Merging(cfg: Config, s: State, n: Uuid, i: nat, e: nat, m: Body, insertOk: bool) {
    && Waiting(cfg, s, n, i) && (cfg.insertsOk ==> insertOk)
    && e < |NodeOf(s, n).table| && e != i
    && TemporaryOk(s, n, NodeOf(s, n).table[i], NodeOf(s, n).sel)
    && var k := NodeOf(s, n).table[i].ctrl.value;
       && NodeOf(s, n).table[e].dir == Inbound && NodeOf(s, n).table[e].remote == k.connector
       && Q(s, Chan(k, true)) != [] && Hello(cfg, k, Q(s, Chan(k, true))[0])
       && m == Q(s, Chan(k, true))[0].body
  }

  lemma MergedShape(cfg: Config, s: State, n: Uuid, i: nat, e: nat, m: Body, insertOk: bool, s': State, sel: set<Sock>)
    requires Merging(cfg, s, n, i, e, m, insertOk)
    requires sel == if m.rpcSetup then NodeOf(s, n).sel else NodeOf(s, n).sel + SockSet(NodeOf(s, n).table[e].rpc)
    requires s'.consumed == s.consumed + {NodeOf(s, n).table[i].ctrl.value}
    ensures var r := MergedBlk(cfg, s, n, i, e, m, insertOk);
            ShapeOk(s', n, r, sel) && AddressOk(cfg, s, n, r) && r.remote == NodeOf(s, n).table[e].remote
            && (NodeOf(s, n).table[e].ctrl.Some? ==> r.ctrl == NodeOf(s, n).table[e].ctrl)
  {
    var d := NodeOf(s, n);
    assert TableOk(cfg, s, n);
    assert d.table[e] in d.table;
    assert ShapeOk(s, n, d.table[e], d.sel) && AddressOk(cfg, s, n, d.table[e]);
  }

  lemma MergedNeighbour(cfg: Config, s: State, n: Uuid, i: nat, e: nat, m: Body, insertOk: bool,
                        s': State, sel: set<Sock>, j: nat)
    requires Merging(cfg, s, n, i, e, m, insertOk)
    requires sel == if m.rpcSetup then NodeOf(s, n).sel else NodeOf(s, n).sel + SockSet(NodeOf(s, n).table[e].rpc)
    requires s'.consumed == s.consumed + {NodeOf(s, n).table[i].ctrl.value}
    requires s'.accepted == s.accepted && s'.dialed == s.dialed
    requires j < |NodeOf(s, n).table| && j != i && j != e
    ensures ShapeOk(s', n, NodeOf(s, n).table[j], sel) && AddressOk(cfg, s, n, NodeOf(s, n).table[j])
  {
    var t := NodeOf(s, n).table;
    assert TableOk(cfg, s, n);
    SockHeldOnce(cfg, s, n, i, j);
    assert t[j] in t && t[e] in t;
    assert ShapeOk(s, n, t[j], NodeOf(s, n).sel) && ShapeOk(s, n, t[e], NodeOf(s, n).sel);
    if j < e { assert Apart(t[j], t[e]); } else { assert Apart(t[e], t[j]); }
  }

  /** The block at `e` becomes `r`, the one at `i` goes away, nothing else moves. */
  lemma MergedTable(t0: seq<Blk>, i: nat, e: nat, r: Blk, t: seq<Blk>)
    requires i < |t0| && e < |t0| && e != i && t == RemoveAt(t0[e := r], i)
    requires forall x, y :: 0 <= x < y < |t0| ==> Apart(t0[x], t0[y])
    requires r.dir == t0[e].dir == Inbound && r.remote == t0[e].remote != 0
    ensures r in t
    ensures forall j :: 0 <= j < |t0| && j != i && j != e ==> t0[j] in t
    ensures forall c :: c in t && c != r ==> exists j :: 0 <= j < |t0| && j != i && j != e && c == t0[j]
    ensures forall x, y :: 0 <= x < y < |t| ==> Apart(t[x], t[y])
  {
    assert t[if e < i then e else e - 1] == r;
    forall j | 0 <= j < |t0| && j != i && j != e ensures t0[j] in t {
      assert t[if j < i then j else j - 1] == t0[j];
    }
    forall c | c in t && c != r ensures exists j :: 0 <= j < |t0| && j != i && j != e && c == t0[j] {
      var x :| 0 <= x < |t| && t[x] == c;
      assert c == t0[Origin(i, x)];
    }
    MergedApart(t0, i, e, r, t);
  }

  lemma MergedApart(t0: seq<Blk>, i: nat, e: nat, r: Blk, t: seq<Blk>)
    requires i < |t0| && e < |t0| && e != i && t == RemoveAt(t0[e := r], i)
    requires forall x, y :: 0 <= x < y < |t0| ==> Apart(t0[x], t0[y])
    requires r.dir == t0[e].dir == Inbound && r.remote == t0[e].remote != 0
    ensures forall x, y :: 0 <= x < y < |t| ==> Apart(t[x], t[y])
  {
    forall x, y | 0 <= x < y < |t| ensures Apart(t[x], t[y]) {
      assert Apart(t0[Origin(i, x)], t0[Origin(i, y)]);
    }
  }

  lemma MergeInv(cfg: Config, s: State, n: Uuid, i: nat, e: nat, r: Blk, d: Node)
    requires Waiting(cfg, s, n, i) && TemporaryOk(s, n, NodeOf(s, n).table[i], NodeOf(s, n).sel)
    requires Q(s, Chan(NodeOf(s, n).table[i].ctrl.value, true)) != []
    requires e < |NodeOf(s, n).table| && e != i
    requires var b := NodeOf(s, n).table[e];
             r.dir == b.dir == Inbound && r.remote == b.remote != 0 && (b.ctrl.Some? ==> r.ctrl == b.ctrl)
    requires d.table == RemoveAt(NodeOf(s, n).table[e := r], i)
    requires var s' := Consume(s, n, NodeOf(s, n).table[i].ctrl.value, d);
             && ShapeOk(s', n, r, d.sel) && AddressOk(cfg, s, n, r)
             && forall j :: 0 <= j < |NodeOf(s, n).table| && j != i && j != e ==>
                  ShapeOk(s', n, NodeOf(s, n).table[j], d.sel) && AddressOk(cfg, s, n, NodeOf(s, n).table[j])
    ensures var s' := Consume(s, n, NodeOf(s, n).table[i].ctrl.value, d);
            Inv(cfg, s') && r in NodeOf(s', n).table
  {
    var t0 := NodeOf(s, n).table;
    assert TableOk(cfg, s, n);
    MergedTable(t0, i, e, r, d.table);
    forall c | c in t0 && c.remote != 0
      ensures exists f :: f in d.table && f.remote == c.remote && (c.ctrl.Some? ==> f.ctrl == c.ctrl)
    {
      var j :| 0 <= j < |t0| && t0[j] == c;
      assert j == e || t0[j] in d.table;
    }
    ConsumeInv(cfg, s, n, t0[i].ctrl.value, d);
  }

  lemma AbsorbInv(cfg: Config, s: State, n: Uuid, i: nat, insertOk: bool)
    requires Waiting(cfg, s, n, i) && (cfg.insertsOk ==> insertOk)
    requires var d := NodeOf(s, n); d.table[i].ctrl.Some?
    requires var d := NodeOf(s, n); Q(s, Chan(d.table[i].ctrl.value, true)) != []
    requires var d := NodeOf(s, n); Hello(cfg, d.table[i].ctrl.value, Q(s, Chan(d.table[i].ctrl.value, true))[0])
    requires var d := NodeOf(s, n); Find(d.table, Inbound, d.table[i].ctrl.value.connector) < |d.table|
    ensures var d := NodeOf(s, n);
            var k := d.table[i].ctrl.value;
            var o := HandleSession(n, n in cfg.ofi, d, i, Q(s, Chan(k, true))[0].body, insertOk);
            !o.fault && Inv(cfg, SendAll(Consume(s, n, k, o.node), n, o.sends))
  {
    var d := NodeOf(s, n);
    var k := d.table[i].ctrl.value;
    var m := Q(s, Chan(k, true))[0].body;
    var e := Find(d.table, Inbound, k.connector);
    var o := HandleSession(n, n in cfg.ofi, d, i, m, insertOk);
    WaitingFacts(cfg, s, n, i);
    var s' := Consume(s, n, k, o.node);
    var r := MergedBlk(cfg, s, n, i, e, m, insertOk);
    MergedShape(cfg, s, n, i, e, m, insertOk, s', o.node.sel);
    forall j | 0 <= j < |d.table| && j != i && j != e
      ensures ShapeOk(s', n, d.table[j], o.node.sel) && AddressOk(cfg, s, n, d.table[j])
    {
      MergedNeighbour(cfg, s, n, i, e, m, insertOk, s', o.node.sel, j);
    }
    MergeInv(cfg, s, n, i, e, r, o.node);
    BeatInv(cfg, s', n, r);
  }

  /** Where the block at `j` stood before the one at `i` was removed. */
  function Origin(i: nat, j: nat): nat { if j < i then j else j + 1 }

  // ---------------------------------------------------------------- every step, every run

  /** What a heartbeat from the peer of its own connection makes of a block. */
  lemma HeartbeatShape(cfg: Config, s: State, n: Uuid, b: Blk, k: Sock, m: Body, insertOk: bool)
    requires ShapeOk(s, n, b, NodeOf(s, n).sel) && AddressOk(cfg, s, n, b) && (cfg.insertsOk ==> insertOk)
    requires b.dir == Outbound || b.remote != 0
    requires b.ctrl == Some(k) && k.connector != 0 && k.acceptor != 0
    requires var p := Sender(In(n, k));
             m == Heartbeat(p, Addr(cfg, p)) && Names(s, p, n, k)
    ensures var h := HeartbeatBlk(n, n in cfg.ofi, b, m, insertOk);
            ShapeOk(s, n, h, NodeOf(s, n).sel) && AddressOk(cfg, s, n, h) && Refines(b, h) && h.remote != 0
  {
  }

  /** The message at the head of a socket whose session message was read. */
  lemma PlainHead(cfg: Config, s: State, n: Uuid, i: nat, k: Sock)
    requires Inv(cfg, s) && i < |NodeOf(s, n).table|
    requires !(NodeOf(s, n).table[i].dir == Inbound && NodeOf(s, n).table[i].remote == 0)
    requires NodeOf(s, n).table[i].ctrl == Some(k) || NodeOf(s, n).table[i].rpc == Some(k)
    requires Q(s, In(n, k)) != []
    ensures var b := NodeOf(s, n).table[i];
            var f := Q(s, In(n, k))[0];
            && Plain(cfg, s, In(n, k), f) && Receiver(In(n, k)) == n
            && k in s.dialed && !(In(n, k).toAcceptor && k !in s.consumed)
            && (b.remote == 0 || b.remote == f.stamp)
            && (f.body.Heartbeat? ==> b.ctrl == Some(k))
  {
    var b := NodeOf(s, n).table[i];
    assert TableOk(cfg, s, n) && b in NodeOf(s, n).table;
    assert ShapeOk(s, n, b, NodeOf(s, n).sel);
    assert QueueOk(cfg, s, In(n, k));
  }

  lemma HeartbeatInv(cfg: Config, s: State, n: Uuid, i: nat, k: Sock, m: Body, insertOk: bool)
    requires Inv(cfg, s) && i < |NodeOf(s, n).table| && (cfg.insertsOk ==> insertOk)
    requires NodeOf(s, n).table[i].dir == Outbound || NodeOf(s, n).table[i].remote != 0
    requires NodeOf(s, n).table[i].ctrl == Some(k) && k in s.dialed
    requires var p := Sender(In(n, k));
             m == Heartbeat(p, Addr(cfg, p)) && Names(s, p, n, k)
    ensures var o := HandleHeartbeat(n, n in cfg.ofi, NodeOf(s, n), i, m, insertOk);
            Inv(cfg, SendAll(SetNode(s, n, o.node), n, o.sends))
  {
    var d := NodeOf(s, n);
    var b := d.table[i];
    assert TableOk(cfg, s, n) && b in d.table;
    var h := HeartbeatBlk(n, n in cfg.ofi, b, m, insertOk);
    HeartbeatShape(cfg, s, n, b, k, m, insertOk);
    var o := HandleHeartbeat(n, n in cfg.ofi, d, i, m, insertOk);
    SwapInv(cfg, s, n, i, h, o.node.events);
    var s1 := SetNode(s, n, o.node);
    assert NodeOf(s1, n).table[i] == h;
    BeatInv(cfg, s1, n, h);
  }

  lemma PlainReadInv(cfg: Config, s: State, n: Uuid, i: nat, k: Sock, insertOk: bool)
    requires Inv(cfg, s) && i < |NodeOf(s, n).table| && (cfg.insertsOk ==> insertOk)
    requires !(NodeOf(s, n).table[i].dir == Inbound && NodeOf(s, n).table[i].remote == 0)
    requires NodeOf(s, n).table[i].ctrl == Some(k) || NodeOf(s, n).table[i].rpc == Some(k)
    requires Q(s, In(n, k)) != []
    ensures Inv(cfg, Read(cfg, s, n, i, k, insertOk))
  {
    var d := NodeOf(s, n);
    var f := Q(s, In(n, k))[0];
    PlainHead(cfg, s, n, i, k);
    PopInv(cfg, s, In(n, k));
    var p := Pop(s, In(n, k));
    TablesKept(cfg, s, p);
    if f.body.Heartbeat? {
      HeartbeatInv(cfg, p, n, i, k, f.body, insertOk);
    } else {
      assert TableOk(cfg, p, n) && d.table[i] in d.table;
      SwapInv(cfg, p, n, i, d.table[i], d.events);
      assert d.table[i := d.table[i]] == d.table;
    }
  }

  lemma SessionReadInv(cfg: Config, s: State, n: Uuid, i: nat, insertOk: bool)
    requires Waiting(cfg, s, n, i) && (cfg.insertsOk ==> insertOk)
    requires NodeOf(s, n).table[i].ctrl.Some? && Q(s, In(n, NodeOf(s, n).table[i].ctrl.value)) != []
    ensures Inv(cfg, Read(cfg, s, n, i, NodeOf(s, n).table[i].ctrl.value, insertOk))
  {
    WaitingFacts(cfg, s, n, i);
    var d := NodeOf(s, n);
    if Find(d.table, Inbound, d.table[i].ctrl.value.connector) == |d.table| {
      AdoptInv(cfg, s, n, i, insertOk);
    } else {
      AbsorbInv(cfg, s, n, i, insertOk);
    }
  }

  /** The RPC half of a block still in its handshake is never read. */
  lemma NewRpcSilent(cfg: Config, s: State, n: Uuid, i: nat, rpcHalf: bool, insertOk: bool)
    requires Inv(cfg, s) && Enabled(cfg, s, Receive(n, i, rpcHalf, insertOk))
    ensures !(NodeOf(s, n).table[i].isNew && rpcHalf)
  {
    var b := NodeOf(s, n).table[i];
    assert TableOk(cfg, s, n) && b in NodeOf(s, n).table;
    assert ShapeOk(s, n, b, NodeOf(s, n).sel);
  }

  lemma ReceiveInv(cfg: Config, s: State, n: Uuid, i: nat, rpcHalf: bool, insertOk: bool)
    requires Inv(cfg, s) && Enabled(cfg, s, Receive(n, i, rpcHalf, insertOk))
    ensures Inv(cfg, Next(cfg, s, Receive(n, i, rpcHalf, insertOk)))
  {
    var b := NodeOf(s, n).table[i];
    NewRpcSilent(cfg, s, n, i, rpcHalf, insertOk);
    if b.dir == Inbound && b.remote == 0 {
      WaitingFacts(cfg, s, n, i);
      SessionReadInv(cfg, s, n, i, insertOk);
    } else {
      PlainReadInv(cfg, s, n, i, Half(b, rpcHalf).value, insertOk);
    }
  }

  /** Every step keeps the invariant: in particular no step finds a sender uuid
      that does not match, merges a block into itself, sees RPC data on a block
      still in its handshake, or drops a fabric message. */
  lemma StepInv(cfg: Config, s: State, t: Step)
    requires Inv(cfg, s) && Enabled(cfg, s, t) && AddressFree(s, t)
    ensures Inv(cfg, Next(cfg, s, t))
  {
    match t
    case OpenCtrl(x, y, info) => OpenInv(cfg, s, Sock(x, y, false), info);
    case OpenRpc(x, y, info) => OpenInv(cfg, s, Sock(x, y, true), info);
    case Link(x, y, id, peerAddr) =>
      AppendInv(cfg, s, Next(cfg, s, t), x, Connected(id, x, y, peerAddr), {Sock(x, y, false), Sock(x, y, true)});
    case Accept(k, id, peerAddr) =>
      assert TableOk(cfg, s, k.acceptor);
      AppendInv(cfg, s, Next(cfg, s, t), k.acceptor, Accepted(id, k, peerAddr), {k});
    case ReportOut(n, i) =>
      assert TableOk(cfg, s, n) && NodeOf(s, n).table[i] in NodeOf(s, n).table;
      SwapInv(cfg, s, n, i, MarkReady(n, NodeOf(s, n).table[i]),
              NodeOf(s, n).events + ReadyEvent(NodeOf(s, n).table[i]));
    case Receive(n, i, rpcHalf, insertOk) =>
      ReceiveInv(cfg, s, n, i, rpcHalf, insertOk);
    case SendBeat(n, i) =>
      assert TableOk(cfg, s, n) && NodeOf(s, n).table[i] in NodeOf(s, n).table;
      BeatInv(cfg, s, n, NodeOf(s, n).table[i]);
    case SendRpc(n, i, len) => RouteInv(cfg, s, n, i, len);
    case Deliver(l) => DeliverInv(cfg, s, l);
  }

  /** An accept keeps the invariant exactly when its address is free: a live block
      that is given the socket of another connection fits no connection. */
  lemma AcceptInvIff(cfg: Config, s: State, k: Sock, id: nat, peerAddr: nat)
    requires Inv(cfg, s) && Enabled(cfg, s, Accept(k, id, peerAddr))
    ensures Inv(cfg, Next(cfg, s, Accept(k, id, peerAddr))) <==> AddressFree(s, Accept(k, id, peerAddr))
  {
    var t := Accept(k, id, peerAddr);
    if AddressFree(s, t) {
      StepInv(cfg, s, t);
    } else {
      var s', n := Next(cfg, s, t), k.acceptor;
      var table := NodeOf(s, n).table;
      var e := FindAlive(table, peerAddr);
      assert TableOk(cfg, s, n) && table[e] in table && SocksOk(s);
      assert ShapeOk(s, n, table[e], NodeOf(s, n).sel);
      var b := NodeOf(s', n).table[e];
      assert b in NodeOf(s', n).table && !ShapeOk(s', n, b, NodeOf(s', n).sel);
      assert !TableOk(cfg, s', n);
    }
  }

  lemma RouteInv(cfg: Config, s: State, n: Uuid, i: nat, len: nat)
    requires Inv(cfg, s) && Enabled(cfg, s, SendRpc(n, i, len))
    ensures Inv(cfg, Next(cfg, s, SendRpc(n, i, len)))
  {
    var b := NodeOf(s, n).table[i];
    var s' := Next(cfg, s, SendRpc(n, i, len));
    assert TableOk(cfg, s, n) && b in NodeOf(s, n).table;
    DialedSock(cfg, s, n, b);
    if n in cfg.ofi && b.ofiReady && HEADER_SIZE + len <= EAGER_BUFFER {
      TablesKept(cfg, s, s');
      forall e ensures QueueOk(cfg, s', e) {
        assert QueueOk(cfg, s, e);
        QueueKept(cfg, s, s', e);
      }
      var x :| x in NodeOf(s, b.remote).table && x.remote == n && x.ctrl == b.ctrl;
      assert x in NodeOf(s', b.remote).table;
      assert LetterOk(s', Letter(n, b.ofiAddr, len));
      assert forall l :: LetterOk(s, l) ==> LetterOk(s', l);
    } else {
      PushInv(cfg, s, Out(n, b.rpc.value), Frame(n, Rpc));
    }
  }

  /** Where an RPC goes: over the fabric, to the process the block names, exactly
      when both ends are ready for it and header and body fit the peer's receive
      buffer of 262144 bytes; otherwise as one frame on the block's RPC socket.
      Nothing else changes. */
  lemma RouteExact(cfg: Config, s: State, n: Uuid, i: nat, len: nat)
    requires Inv(cfg, s) && Enabled(cfg, s, SendRpc(n, i, len))
    ensures var b, s' := NodeOf(s, n).table[i], Next(cfg, s, SendRpc(n, i, len));
            var fits := n in cfg.ofi && b.ofiReady && 28 + len <= 262144;
            && s'.fabric == s.fabric + (if fits then multiset{Letter(n, b.remote, len)} else multiset{})
            && (forall c :: Q(s', c) == Q(s, c) + if !fits && c == Out(n, b.rpc.value) then [Frame(n, Rpc)] else [])
            && s'.nodes == s.nodes && s'.handled == s.handled
  {
    var b := NodeOf(s, n).table[i];
    assert TableOk(cfg, s, n) && b in NodeOf(s, n).table;
    assert AddressOk(cfg, s, n, b);
  }

  /** Where a fabric message is handled: on a block that names its sender, on an
      outbound one if the receiver has any, and on the first of its direction. */
  lemma DispatchExact(cfg: Config, s: State, l: Letter)
    requires Inv(cfg, s) && l in s.fabric
    ensures var s', t := Next(cfg, s, Deliver(l)), NodeOf(s, l.dst).table;
            exists e :: 0 <= e < |t| && t[e].remote == l.src
              && s'.handled == s.handled + [Handled(l, t[e].id)]
              && (forall i :: 0 <= i < |t| && t[i].remote == l.src && t[i].dir == Outbound ==> t[e].dir == Outbound)
              && (forall i :: 0 <= i < e ==> !(t[i].dir == t[e].dir && t[i].remote == l.src))
    ensures Next(cfg, s, Deliver(l)).fabric == s.fabric - multiset{l}
  {
    assert LetterOk(s, l);
    var t := NodeOf(s, l.dst).table;
    var e := FindGlobal(t, l.src);
    assert t[e].remote == l.src;
  }

  lemma DeliverInv(cfg: Config, s: State, l: Letter)
    requires Inv(cfg, s) && l in s.fabric
    ensures Inv(cfg, Next(cfg, s, Deliver(l)))
  {
    var s' := Next(cfg, s, Deliver(l));
    TablesKept(cfg, s, s');
    forall e ensures QueueOk(cfg, s', e) {
      assert QueueOk(cfg, s, e);
      QueueKept(cfg, s, s', e);
    }
    assert LetterOk(s, l);
    assert forall x :: LetterOk(s, x) ==> LetterOk(s', x);
  }

  lemma {:induction false} RunInv(cfg: Config, s: State, steps: seq<Step>, s': State)
    requires Inv(cfg, s) && Run(cfg, s, steps, s') && AddressesFree(cfg, s, steps)
    ensures Inv(cfg, s')
    decreases |steps|
  {
    if steps != [] {
      StepInv(cfg, s, steps[0]);
      RunInv(cfg, Next(cfg, s, steps[0]), steps[1..], s');
    }
  }

  // ---------------------------------------------------------------- results

  /** A peer marked fabric ready can name us, on the block of this very
      connection; and it holds our fabric address when it can. */
  lemma FabricReadySound(cfg: Config, steps: seq<Step>, s: State, x: Uuid, i: nat)
    requires Run(cfg, Start, steps, s) && AddressesFree(cfg, Start, steps)
    requires i < |NodeOf(s, x).table| && NodeOf(s, x).table[i].ofiReady
    ensures
      var b := NodeOf(s, x).table[i];
      var t := NodeOf(s, b.remote).table;
      && b.ctrl.Some?
      && (exists j :: 0 <= j < |t| && t[j].remote == x && t[j].ctrl == b.ctrl)
      && b.addrValid && b.ofiAddr == b.remote
      && FindGlobal(t, x) < |t|
      && (cfg.insertsOk && x in cfg.ofi && b.remote in cfg.ofi ==>
            forall j :: 0 <= j < |t| && t[j].remote == x ==> t[j].addrValid && t[j].ofiAddr == x)
  {
    RunInv(cfg, Start, steps, s);
    var b := NodeOf(s, x).table[i];
    assert TableOk(cfg, s, x) && b in NodeOf(s, x).table;
    assert TableOk(cfg, s, b.remote);
    assert Names(s, b.remote, x, b.ctrl.value);
    var t := NodeOf(s, b.remote).table;
    var a :| a in t && a.remote == x && a.ctrl == b.ctrl;
    assert forall j :: 0 <= j < |t| ==> t[j] in t;
  }

  /** No disconnect-free run trips a check, and every fabric message in flight
      finds its sender whenever it arrives. */
  lemma NothingDropped(cfg: Config, steps: seq<Step>, s: State)
    requires Run(cfg, Start, steps, s) && AddressesFree(cfg, Start, steps)
    ensures !s.fault
    ensures forall l :: l in s.fabric ==>
              FindGlobal(NodeOf(s, l.dst).table, l.src) < |NodeOf(s, l.dst).table| && 28 + l.len <= 262144
  {
    RunInv(cfg, Start, steps, s);
    forall l | l in s.fabric
      ensures FindGlobal(NodeOf(s, l.dst).table, l.src) < |NodeOf(s, l.dst).table| && 28 + l.len <= 262144
    {
      assert LetterOk(s, l);
    }
  }
}

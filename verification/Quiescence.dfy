/**
  The handshake completes by itself: once a connection's sockets are accepted and
  nothing is left to read on them, both ends have reported READY and, where both
  run the fabric, both use it. No periodic heartbeat is needed for this.
 */
module Quiescence {
  import opened Common
  import opened Handshake
  import opened Fabric

  /** The acceptor's block for the connector holds this socket. */
  ghost predicate Attached(s: State, k: Sock) {
    exists b :: b in NodeOf(s, k.acceptor).table && b.dir == Inbound && b.remote == k.connector
                && (if k.rpc then b.rpc else b.ctrl) == Some(k)
  }

  /** A heartbeat is under way. */
  ghost predicate Beating(s: State, c: Chan) {
    exists f :: f in Q(s, c) && f.body.Heartbeat?
  }

  /** Process w sends to p over the fabric, on the connection of this socket. */
  ghost predicate OnFabric(s: State, w: Uuid, p: Uuid, k: Sock) {
    exists b :: b in NodeOf(s, w).table && b.remote == p && b.ctrl == Some(k) && b.ofiReady
  }

  /** The connector has learned who answered. */
  ghost predicate Learned(s: State, k: Sock) {
    Names(s, k.connector, k.acceptor, k)
  }

  predicate Wide(cfg: Config, k: Sock) {
    cfg.insertsOk && k.connector in cfg.ofi && k.acceptor in cfg.ofi
  }

  /** What each end of a control socket has done, or has been told to do. */
  ghost predicate PairOk(cfg: Config, s: State, k: Sock) {
    && (k in s.consumed && k.(rpc := true) in s.consumed ==> Beating(s, Chan(k, false)) || Learned(s, k))
    && (Wide(cfg, k) && Learned(s, k) ==>
          && OnFabric(s, k.connector, k.acceptor, k)
          && (Beating(s, Chan(k, true)) || OnFabric(s, k.acceptor, k.connector, k)))
  }

  ghost predicate Live(cfg: Config, s: State) {
    && (forall k :: k in s.consumed ==> Attached(s, k))
    && (forall k: Sock :: !k.rpc ==> PairOk(cfg, s, k))
  }

  // ---------------------------------------------------------------- what steps keep

  /** Nothing attached or learned is lost. */
  ghost predicate Keeps(s: State, s': State) {
    && (forall k :: Attached(s, k) ==> Attached(s', k))
    && (forall k :: Learned(s, k) ==> Learned(s', k))
    && (forall w, p, k :: OnFabric(s, w, p, k) ==> OnFabric(s', w, p, k))
  }

  /** A socket the step leaves alone. */
  ghost predicate Undisturbed(s: State, s': State, k: Sock) {
    && (k in s'.consumed && k.(rpc := true) in s'.consumed ==> k in s.consumed && k.(rpc := true) in s.consumed)
    && (Beating(s, Chan(k, false)) ==> Beating(s', Chan(k, false)))
    && (Beating(s, Chan(k, true)) ==> Beating(s', Chan(k, true)))
    && (Learned(s', k) ==> Learned(s, k))
  }

  lemma PairKept(cfg: Config, s: State, s': State, k: Sock)
    requires PairOk(cfg, s, k) && Keeps(s, s') && Undisturbed(s, s', k)
    ensures PairOk(cfg, s', k)
  {
  }

  lemma LiveKept(cfg: Config, s: State, s': State)
    requires Live(cfg, s) && Keeps(s, s') && s'.consumed == s.consumed
    requires forall k: Sock :: !k.rpc ==> Undisturbed(s, s', k)
    ensures Live(cfg, s')
  {
    forall k: Sock | !k.rpc ensures PairOk(cfg, s', k) { PairKept(cfg, s, s', k); }
  }

  lemma PushLive(cfg: Config, s: State, c: Chan, f: Frame)
    requires Live(cfg, s)
    ensures Live(cfg, Push(s, c, f)) && Keeps(s, Push(s, c, f))
    ensures forall e :: Beating(s, e) ==> Beating(Push(s, c, f), e)
    ensures forall k :: Learned(Push(s, c, f), k) ==> Learned(s, k)
    ensures f.body.Heartbeat? ==> Beating(Push(s, c, f), c)
  {
    var s' := Push(s, c, f);
    TablesSame(s, s');
    assert f in Q(s', c);
    assert forall e, g :: g in Q(s, e) ==> g in Q(s', e);
    LiveKept(cfg, s, s');
  }

  lemma TablesSame(s: State, s': State)
    requires s'.nodes == s.nodes
    ensures Keeps(s, s') && forall k :: Learned(s', k) ==> Learned(s, k)
  {
    assert forall n :: NodeOf(s', n) == NodeOf(s, n);
  }

  /** A new block that names nobody. */
  lemma AppendKeeps(s: State, s': State, n: Uuid, b: Blk, sel: set<Sock>)
    requires s'.nodes == s.nodes[n := NodeOf(s, n).(table := NodeOf(s, n).table + [b], sel := sel)] && b.remote == 0
    ensures Keeps(s, s') && forall k :: Learned(s', k) ==> Learned(s, k)
  {
    assert forall m :: m != n ==> NodeOf(s', m) == NodeOf(s, m);
    assert forall m, a :: a in NodeOf(s, m).table ==> a in NodeOf(s', m).table;
    assert forall m, a :: a in NodeOf(s', m).table && a.remote != 0 ==> a in NodeOf(s, m).table;
  }

  /** A block that changes in place and loses nothing. */
  ghost predicate Grown(b: Blk, c: Blk) {
    && c.dir == b.dir && c.ctrl == b.ctrl && c.rpc == b.rpc
    && (b.remote != 0 ==> c.remote == b.remote) && (b.ofiReady ==> c.ofiReady)
  }

  lemma SwapKeeps(s: State, s': State, n: Uuid, i: nat, c: Blk)
    requires i < |NodeOf(s, n).table| && Grown(NodeOf(s, n).table[i], c)
    requires NodeOf(s', n).table == NodeOf(s, n).table[i := c] && forall m :: m != n ==> NodeOf(s', m) == NodeOf(s, m)
    requires NodeOf(s, n).table[i].dir == Inbound ==> NodeOf(s, n).table[i].remote != 0
    requires NodeOf(s, n).table[i].ofiReady ==> NodeOf(s, n).table[i].remote != 0
    ensures Keeps(s, s')
  {
    var t, t' := NodeOf(s, n).table, NodeOf(s', n).table;
    assert t'[i] == c && c in t';
    assert forall a :: a in t ==> a == t[i] || a in t' by {
      forall a | a in t && a != t[i] ensures a in t' {
        var j :| 0 <= j < |t| && t[j] == a;
        assert t'[j] == a;
      }
    }
    forall k | Attached(s, k) ensures Attached(s', k) {
      var b :| b in NodeOf(s, k.acceptor).table && b.dir == Inbound && b.remote == k.connector
               && (if k.rpc then b.rpc else b.ctrl) == Some(k);
      assert b in NodeOf(s', k.acceptor).table || (k.acceptor == n && b == t[i]);
    }
    forall k | Learned(s, k) ensures Learned(s', k) {
      var b :| b in NodeOf(s, k.connector).table && b.remote == k.acceptor && b.ctrl == Some(k);
      assert b in NodeOf(s', k.connector).table || (k.connector == n && b == t[i]);
    }
    forall w, p, k | OnFabric(s, w, p, k) ensures OnFabric(s', w, p, k) {
      var b :| b in NodeOf(s, w).table && b.remote == p && b.ctrl == Some(k) && b.ofiReady;
      assert b in NodeOf(s', w).table || (w == n && b == t[i]);
    }
  }

  // ---------------------------------------------------------------- reading a frame that is not a session message

  lemma PopBeats(s: State, c: Chan, e: Chan)
    requires Q(s, c) != [] && Beating(s, e) && (e != c || !Q(s, c)[0].body.Heartbeat?)
    ensures Beating(Pop(s, c), e)
  {
    var f :| f in Q(s, e) && f.body.Heartbeat?;
    assert e == c ==> f in Q(s, c)[1..];
  }

  /** Data frames change no table. */
  lemma DataLive(cfg: Config, s: State, s': State, c: Chan)
    requires Live(cfg, s) && Q(s, c) != [] && !Q(s, c)[0].body.Heartbeat?
    requires s'.q == Pop(s, c).q && s'.consumed == s.consumed
    requires forall m :: NodeOf(s', m) == NodeOf(s, m)
    ensures Live(cfg, s')
  {
    forall e | Beating(s, e) ensures Beating(s', e) {
      PopBeats(s, c, e);
      assert Q(s', e) == Q(Pop(s, c), e);
    }
    LiveKept(cfg, s, s');
  }

  /** The block at i reads a heartbeat on its control socket k, becoming h. */
  ghost predicate Hears(cfg: Config, s: State, n: Uuid, i: nat, k: Sock, h: Blk) {
    && i < |NodeOf(s, n).table| && !k.rpc && k.connector != k.acceptor && k.connector != 0 && k.acceptor != 0
    && var b := NodeOf(s, n).table[i];
       && b.ctrl == Some(k) && Grown(b, h) && (b.ofiReady ==> b.remote != 0)
       && (if n == k.connector then b.dir == Outbound && h.remote == k.acceptor
           else n == k.acceptor && b.dir == Inbound && b.remote == h.remote == k.connector)
       && (Wide(cfg, k) ==> h.ofiReady)
  }

  lemma HearKeeps(cfg: Config, s: State, s1: State, n: Uuid, i: nat, k: Sock, h: Blk)
    requires Hears(cfg, s, n, i, k, h)
    requires NodeOf(s1, n).table == NodeOf(s, n).table[i := h] && forall m :: m != n ==> NodeOf(s1, m) == NodeOf(s, m)
    ensures Keeps(s, s1)
    ensures forall k' :: k' != k && Learned(s1, k') ==> Learned(s, k')
    ensures n == k.acceptor && Learned(s1, k) ==> Learned(s, k)
    ensures n == k.connector ==> Learned(s1, k)
    ensures Wide(cfg, k) ==> OnFabric(s1, n, h.remote, k)
  {
    SwapKeeps(s, s1, n, i, h);
    var t, t' := NodeOf(s, n).table, NodeOf(s1, n).table;
    assert t'[i] == h && h in t';
    assert forall a :: a in t' ==> a == h || a in t;
    forall k' | (k' != k || n == k.acceptor) && Learned(s1, k') ensures Learned(s, k') {
      var a :| a in NodeOf(s1, k'.connector).table && a.remote == k'.acceptor && a.ctrl == Some(k');
      assert a in NodeOf(s, k'.connector).table;
    }
  }

  lemma HeartbeatLive(cfg: Config, s: State, s': State, n: Uuid, i: nat, k: Sock, h: Blk)
    requires Live(cfg, s) && Hears(cfg, s, n, i, k, h) && Q(s, In(n, k)) != []
    requires NodeOf(s', n).table == NodeOf(s, n).table[i := h] && forall m :: m != n ==> NodeOf(s', m) == NodeOf(s, m)
    requires s'.consumed == s.consumed
    requires forall e :: e != In(n, k) && Beating(s, e) ==> Beating(s', e)
    requires NodeOf(s, n).table[i].remote == 0 && Wide(cfg, k) ==> Beating(s', Chan(k, true))
    ensures Live(cfg, s')
  {
    HearKeeps(cfg, s, s', n, i, k, h);
    forall j: Sock | !j.rpc ensures PairOk(cfg, s', j) {
      assert PairOk(cfg, s, j);
      if j != k {
        PairKept(cfg, s, s', j);
      } else if n == k.connector {
        if NodeOf(s, n).table[i].remote != 0 {
          assert NodeOf(s, n).table[i] in NodeOf(s, n).table;
          assert Learned(s, k);
        }
      }
    }
  }

  lemma HearsOf(cfg: Config, s: State, n: Uuid, i: nat, k: Sock, insertOk: bool)
    requires Inv(cfg, s) && i < |NodeOf(s, n).table| && (cfg.insertsOk ==> insertOk)
    requires !(NodeOf(s, n).table[i].dir == Inbound && NodeOf(s, n).table[i].remote == 0)
    requires NodeOf(s, n).table[i].ctrl == Some(k)
    requires Q(s, In(n, k)) != [] && Q(s, In(n, k))[0].body.Heartbeat?
    ensures Hears(cfg, s, n, i, k,
                  HeartbeatBlk(n, n in cfg.ofi, NodeOf(s, n).table[i], Q(s, In(n, k))[0].body, insertOk))
  {
    var b := NodeOf(s, n).table[i];
    var m := Q(s, In(n, k))[0].body;
    PlainHead(cfg, s, n, i, k);
    assert TableOk(cfg, s, n) && b in NodeOf(s, n).table;
    assert ShapeOk(s, n, b, NodeOf(s, n).sel) && AddressOk(cfg, s, n, b);
    HeartbeatShape(cfg, s, n, b, k, m, insertOk);
  }

  /** What reading a heartbeat sends: an answer when it told us who is there. */
  lemma SendBeatOnce(s: State, n: Uuid, up: bool, b: Blk, k: Sock)
    requires b.ctrl == Some(k)
    ensures SendAll(s, n, Beat(n, up, b)) == Push(s, Out(n, k), Frame(n, Heartbeat(n, if up then n else 0)))
  {
    var f := Frame(n, Heartbeat(n, if up then n else 0));
    assert Beat(n, up, b) == [(k, f)] && [(k, f)][1..] == [];
    assert SendAll(s, n, [(k, f)]) == SendAll(Push(s, Out(n, k), f), n, []);
  }

  lemma HeartbeatReadLive(cfg: Config, s: State, n: Uuid, i: nat, k: Sock, insertOk: bool)
    requires Live(cfg, s) && Inv(cfg, s) && i < |NodeOf(s, n).table| && (cfg.insertsOk ==> insertOk)
    requires !(NodeOf(s, n).table[i].dir == Inbound && NodeOf(s, n).table[i].remote == 0)
    requires NodeOf(s, n).table[i].ctrl == Some(k)
    requires Q(s, In(n, k)) != [] && Q(s, In(n, k))[0].body.Heartbeat?
    ensures Live(cfg, Read(cfg, s, n, i, k, insertOk))
  {
    var b, f := NodeOf(s, n).table[i], Q(s, In(n, k))[0];
    var s' := Read(cfg, s, n, i, k, insertOk);
    HearsOf(cfg, s, n, i, k, insertOk);
    PlainHead(cfg, s, n, i, k);
    var h := HeartbeatBlk(n, n in cfg.ofi, b, f.body, insertOk);
    var o := HandleHeartbeat(n, n in cfg.ofi, NodeOf(s, n), i, f.body, insertOk);
    assert Process(n, n in cfg.ofi, NodeOf(s, n), i, f, insertOk) == o;
    var s1 := SetNode(Pop(s, In(n, k)), n, o.node);
    assert s1.(fault := s.fault || o.fault) == s1.(fault := s.fault);
    var answers := b.remote == 0 && n in cfg.ofi;
    if answers { SendBeatOnce(s1.(fault := s.fault), n, true, h, k); }
    assert s'.q == if answers then Push(s1, Out(n, k), Frame(n, Heartbeat(n, n))).q else Pop(s, In(n, k)).q;
    forall e | e != In(n, k) && Beating(s, e) ensures Beating(s', e) {
      PopBeats(s, In(n, k), e);
      assert forall g :: g in Q(Pop(s, In(n, k)), e) ==> g in Q(s', e);
    }
    if answers {
      assert Frame(n, Heartbeat(n, n)) in Q(s', Out(n, k));
    }
    HeartbeatLive(cfg, s, s', n, i, k, h);
  }

  lemma PlainReadLive(cfg: Config, s: State, n: Uuid, i: nat, k: Sock, insertOk: bool)
    requires Live(cfg, s) && Inv(cfg, s) && i < |NodeOf(s, n).table| && (cfg.insertsOk ==> insertOk)
    requires !(NodeOf(s, n).table[i].dir == Inbound && NodeOf(s, n).table[i].remote == 0)
    requires NodeOf(s, n).table[i].ctrl == Some(k) || NodeOf(s, n).table[i].rpc == Some(k)
    requires Q(s, In(n, k)) != []
    ensures Live(cfg, Read(cfg, s, n, i, k, insertOk))
  {
    PlainHead(cfg, s, n, i, k);
    if Q(s, In(n, k))[0].body.Heartbeat? {
      HeartbeatReadLive(cfg, s, n, i, k, insertOk);
    } else {
      DataLive(cfg, s, Read(cfg, s, n, i, k, insertOk), In(n, k));
    }
  }

  // ---------------------------------------------------------------- reading a session message

  ghost predicate Succeeds(b: Blk, c: Blk) {
    && c.dir == b.dir && c.remote == b.remote && (b.ofiReady ==> c.ofiReady)
    && (b.ctrl.Some? ==> c.ctrl == b.ctrl) && (b.rpc.Some? ==> c.rpc == b.rpc)
  }

  /** Every block that names a peer lives on. */
  ghost predicate LivesOn(t: seq<Blk>, t': seq<Blk>) {
    forall b :: b in t && b.remote != 0 ==> exists c :: c in t' && Succeeds(b, c)
  }

  lemma LivesOnKeeps(s: State, s': State, n: Uuid)
    requires LivesOn(NodeOf(s, n).table, NodeOf(s', n).table) && forall m :: m != n ==> NodeOf(s', m) == NodeOf(s, m)
    requires forall b :: b in NodeOf(s, n).table && b.ofiReady ==> b.remote != 0
    ensures forall k: Sock :: k.connector != 0 && Attached(s, k) ==> Attached(s', k)
    ensures forall k :: Learned(s, k) ==> Learned(s', k)
    ensures forall w, p, k :: OnFabric(s, w, p, k) ==> OnFabric(s', w, p, k)
  {
    forall m, b | b in NodeOf(s, m).table && b.remote != 0
      ensures exists c :: c in NodeOf(s', m).table && Succeeds(b, c)
    {
      if m != n { assert b in NodeOf(s', m).table && Succeeds(b, b); }
    }
    forall k: Sock | k.connector != 0 && Attached(s, k) ensures Attached(s', k) {
      var b :| b in NodeOf(s, k.acceptor).table && b.dir == Inbound && b.remote == k.connector
               && (if k.rpc then b.rpc else b.ctrl) == Some(k);
      var c :| c in NodeOf(s', k.acceptor).table && Succeeds(b, c);
    }
    forall k | Learned(s, k) ensures Learned(s', k) {
      var b :| b in NodeOf(s, k.connector).table && b.remote == k.acceptor && b.ctrl == Some(k);
      var c :| c in NodeOf(s', k.connector).table && Succeeds(b, c);
    }
    forall w, p, k | OnFabric(s, w, p, k) ensures OnFabric(s', w, p, k) {
      var b :| b in NodeOf(s, w).table && b.remote == p && b.ctrl == Some(k) && b.ofiReady;
      assert b.remote != 0 || w != n;
      if w == n {
        var c :| c in NodeOf(s', w).table && Succeeds(b, c);
      } else {
        assert b in NodeOf(s', w).table;
      }
    }
  }

  lemma SessionLive(cfg: Config, s: State, s': State, n: Uuid, k: Sock)
    requires Live(cfg, s) && Inv(cfg, s) && k.acceptor == n && k !in s.consumed
    requires s'.consumed == s.consumed + {k}
    requires LivesOn(NodeOf(s, n).table, NodeOf(s', n).table) && forall m :: m != n ==> NodeOf(s', m) == NodeOf(s, m)
    requires Attached(s', k) && (forall j :: Learned(s', j) ==> Learned(s, j))
    requires forall e :: Beating(s, e) ==> Beating(s', e)
    requires k.(rpc := !k.rpc) in s.consumed ==> Beating(s', Chan(k.(rpc := false), false))
    ensures Live(cfg, s')
  {
    assert TableOk(cfg, s, n);
    assert forall b :: b in NodeOf(s, n).table ==> AddressOk(cfg, s, n, b);
    LivesOnKeeps(s, s', n);
    forall j: Sock | !j.rpc ensures PairOk(cfg, s', j) {
      assert PairOk(cfg, s, j);
      assert k.rpc ==> k.(rpc := false).(rpc := true) == k;
    }
  }

  lemma AdoptLives(t: seq<Blk>, i: nat, b: Blk)
    requires i < |t| && t[i].dir == Inbound && t[i].remote == 0
    ensures LivesOn(t, t[i := b])
  {
    forall a | a in t && a.remote != 0 ensures exists c :: c in t[i := b] && Succeeds(a, c) {
      var j :| 0 <= j < |t| && t[j] == a;
      assert t[i := b][j] == a && Succeeds(a, a);
    }
  }

  lemma MergeLives(t: seq<Blk>, i: nat, e: nat, r: Blk, t': seq<Blk>)
    requires i < |t| && e < |t| && e != i && t' == RemoveAt(t[e := r], i)
    requires forall x, y :: 0 <= x < y < |t| ==> Apart(t[x], t[y])
    requires t[i].dir == Inbound && t[i].remote == 0
    requires r.dir == t[e].dir == Inbound && r.remote == t[e].remote != 0 && Succeeds(t[e], r)
    ensures LivesOn(t, t') && r in t' && forall c :: c in t' ==> c == r || c in t
  {
    MergedTable(t, i, e, r, t');
    forall a | a in t && a.remote != 0 ensures exists c :: c in t' && Succeeds(a, c) {
      var j :| 0 <= j < |t| && t[j] == a;
      assert Succeeds(a, if j == e then r else a);
    }
  }

  /** A block changed at the acceptor teaches the connector nothing. */
  lemma NothingLearned(s: State, s': State, n: Uuid, r: Blk)
    requires forall m :: m != n ==> NodeOf(s', m) == NodeOf(s, m)
    requires forall c :: c in NodeOf(s', n).table ==> c == r || c in NodeOf(s, n).table
    requires r.ctrl.Some? ==> r.ctrl.value.connector != n
    ensures forall j :: Learned(s', j) ==> Learned(s, j)
  {
    forall j | Learned(s', j) ensures Learned(s, j) {
      var a :| a in NodeOf(s', j.connector).table && a.remote == j.acceptor && a.ctrl == Some(j);
      assert a in NodeOf(s, j.connector).table;
    }
  }

  lemma AdoptReadLive(cfg: Config, s: State, n: Uuid, i: nat, insertOk: bool)
    requires Live(cfg, s) && Waiting(cfg, s, n, i) && NodeOf(s, n).table[i].ctrl.Some?
    requires Q(s, In(n, NodeOf(s, n).table[i].ctrl.value)) != []
    requires Find(NodeOf(s, n).table, Inbound, NodeOf(s, n).table[i].ctrl.value.connector) == |NodeOf(s, n).table|
    ensures Live(cfg, Read(cfg, s, n, i, NodeOf(s, n).table[i].ctrl.value, insertOk))
  {
    WaitingFacts(cfg, s, n, i);
    var t, a := NodeOf(s, n).table, NodeOf(s, n).table[i];
    var k := a.ctrl.value;
    var f := Q(s, Chan(k, true))[0];
    var s' := Read(cfg, s, n, i, k, insertOk);
    var b := Adopt(a, f.body, n in cfg.ofi, insertOk);
    assert In(n, k) == Chan(k, true) && NodeOf(s', n).table == t[i := b];
    AdoptLives(t, i, b);
    assert t[i := b][i] == b;
    assert Attached(s', k);
    NothingLearned(s, s', n, b);
    forall e | Beating(s, e) ensures Beating(s', e) {
      PopBeats(s, Chan(k, true), e);
      assert Q(s', e) == Q(Pop(s, Chan(k, true)), e);
    }
    assert !Attached(s, k.(rpc := !k.rpc));
    SessionLive(cfg, s, s', n, k);
  }

  /** The block that already stands for the connector lacks this half and has the
      other, so the merge makes it ready. */
  lemma MergeCompletes(cfg: Config, s: State, n: Uuid, i: nat, e: nat, m: Body, insertOk: bool)
    requires Merging(cfg, s, n, i, e, m, insertOk)
    ensures var t := NodeOf(s, n).table;
            var k := t[i].ctrl.value;
            var b := Learn(Absorb(t[e], t[i], m), m.addr, n in cfg.ofi, insertOk);
            var r := MergedBlk(cfg, s, n, i, e, m, insertOk);
            && ReadyPending(b) && Succeeds(t[e], r)
            && r.ctrl == Some(k.(rpc := false)) && r.rpc == Some(k.(rpc := true))
  {
    var t := NodeOf(s, n).table;
    assert TableOk(cfg, s, n) && t[e] in t;
    assert ShapeOk(s, n, t[e], NodeOf(s, n).sel);
  }

  lemma MergeReadLive(cfg: Config, s: State, n: Uuid, i: nat, e: nat, insertOk: bool)
    requires Live(cfg, s) && Waiting(cfg, s, n, i) && NodeOf(s, n).table[i].ctrl.Some?
    requires Q(s, In(n, NodeOf(s, n).table[i].ctrl.value)) != []
    requires Merging(cfg, s, n, i, e, Q(s, In(n, NodeOf(s, n).table[i].ctrl.value))[0].body, insertOk)
    requires e == Find(NodeOf(s, n).table, Inbound, NodeOf(s, n).table[i].ctrl.value.connector)
    ensures Live(cfg, Read(cfg, s, n, i, NodeOf(s, n).table[i].ctrl.value, insertOk))
  {
    WaitingFacts(cfg, s, n, i);
    var t := NodeOf(s, n).table;
    var k := t[i].ctrl.value;
    var f := Q(s, Chan(k, true))[0];
    assert In(n, k) == Chan(k, true);
    var s' := Read(cfg, s, n, i, k, insertOk);
    MergeCompletes(cfg, s, n, i, e, f.body, insertOk);
    var r := MergedBlk(cfg, s, n, i, e, f.body, insertOk);
    var o := HandleSession(n, n in cfg.ofi, NodeOf(s, n), i, f.body, insertOk);
    assert o.node.table == RemoveAt(t[e := r], i) && o.sends == Beat(n, n in cfg.ofi, r);
    var s1 := Consume(s, n, k, o.node).(fault := s.fault || o.fault);
    SendBeatOnce(s1, n, n in cfg.ofi, r, k.(rpc := false));
    assert s' == SendAll(s1, n, o.sends);
    MergedLive(cfg, s, s1, s', n, i, e, r);
  }

  lemma AttachedBy(s: State, k: Sock, r: Blk)
    requires r in NodeOf(s, k.acceptor).table && r.dir == Inbound && r.remote == k.connector
    requires r.ctrl == Some(k.(rpc := false)) && r.rpc == Some(k.(rpc := true))
    ensures Attached(s, k)
  {
    assert k == if k.rpc then k.(rpc := true) else k.(rpc := false);
  }

  lemma MergedLive(cfg: Config, s: State, s1: State, s': State, n: Uuid, i: nat, e: nat, r: Blk)
    requires Live(cfg, s) && Inv(cfg, s) && i < |NodeOf(s, n).table| && e < |NodeOf(s, n).table| && e != i
    requires TemporaryOk(s, n, NodeOf(s, n).table[i], NodeOf(s, n).sel)
    requires NodeOf(s, n).table[i].dir == Inbound && NodeOf(s, n).table[i].remote == 0
    requires var t := NodeOf(s, n).table;
             r.dir == t[e].dir == Inbound && r.remote == t[e].remote == t[i].ctrl.value.connector && Succeeds(t[e], r)
    requires var k := NodeOf(s, n).table[i].ctrl.value;
             && r.ctrl == Some(k.(rpc := false)) && r.rpc == Some(k.(rpc := true))
             && Q(s, Chan(k, true)) != [] && !Q(s, Chan(k, true))[0].body.Heartbeat?
             && s1.q == Pop(s, Chan(k, true)).q
             && s1.consumed == s.consumed + {k}
             && exists addr :: s' == Push(s1, Out(n, k.(rpc := false)), Frame(n, Heartbeat(n, addr)))
    requires NodeOf(s1, n).table == RemoveAt(NodeOf(s, n).table[e := r], i)
    requires forall m :: m != n ==> NodeOf(s1, m) == NodeOf(s, m)
    ensures Live(cfg, s')
  {
    var t, t' := NodeOf(s, n).table, NodeOf(s1, n).table;
    var k := t[i].ctrl.value;
    assert forall m :: NodeOf(s', m) == NodeOf(s1, m);
    assert TableOk(cfg, s, n);
    MergeLives(t, i, e, r, t');
    AttachedBy(s', k, r);
    NothingLearned(s, s', n, r);
    MergeBeats(s, s1, s', n, k);
    SessionLive(cfg, s, s', n, k);
  }

  lemma MergeBeats(s: State, s1: State, s': State, n: Uuid, k: Sock)
    requires k.acceptor == n && k.connector != n && Q(s, Chan(k, true)) != [] && !Q(s, Chan(k, true))[0].body.Heartbeat?
    requires s1.q == Pop(s, Chan(k, true)).q
    requires exists addr :: s' == Push(s1, Out(n, k.(rpc := false)), Frame(n, Heartbeat(n, addr)))
    ensures forall e :: Beating(s, e) ==> Beating(s', e)
    ensures Beating(s', Chan(k.(rpc := false), false))
  {
    var addr :| s' == Push(s1, Out(n, k.(rpc := false)), Frame(n, Heartbeat(n, addr)));
    assert Frame(n, Heartbeat(n, addr)) in Q(s', Chan(k.(rpc := false), false));
    forall e | Beating(s, e) ensures Beating(s', e) {
      PopBeats(s, Chan(k, true), e);
      assert forall g :: g in Q(s1, e) ==> g in Q(s', e);
    }
  }

  lemma SessionReadLive(cfg: Config, s: State, n: Uuid, i: nat, insertOk: bool)
    requires Live(cfg, s) && Waiting(cfg, s, n, i) && (cfg.insertsOk ==> insertOk)
    requires NodeOf(s, n).table[i].ctrl.Some? && Q(s, In(n, NodeOf(s, n).table[i].ctrl.value)) != []
    ensures Live(cfg, Read(cfg, s, n, i, NodeOf(s, n).table[i].ctrl.value, insertOk))
  {
    WaitingFacts(cfg, s, n, i);
    var t := NodeOf(s, n).table;
    var e := Find(t, Inbound, t[i].ctrl.value.connector);
    if e == |t| {
      AdoptReadLive(cfg, s, n, i, insertOk);
    } else {
      MergeReadLive(cfg, s, n, i, e, insertOk);
    }
  }

  // ---------------------------------------------------------------- every step, every run

  /** Steps that touch neither a table nor a queue. */
  lemma IdleLive(cfg: Config, s: State, s': State)
    requires Live(cfg, s) && s'.nodes == s.nodes && s'.q == s.q && s'.consumed == s.consumed
    ensures Live(cfg, s')
  {
    TablesSame(s, s');
    assert forall c :: Q(s', c) == Q(s, c);
    LiveKept(cfg, s, s');
  }

  lemma AppendLive(cfg: Config, s: State, s': State, n: Uuid, b: Blk, sel: set<Sock>)
    requires Live(cfg, s) && s'.q == s.q && s'.consumed == s.consumed && b.remote == 0
    requires s'.nodes == s.nodes[n := NodeOf(s, n).(table := NodeOf(s, n).table + [b], sel := sel)]
    ensures Live(cfg, s')
  {
    AppendKeeps(s, s', n, b, sel);
    assert forall c :: Q(s', c) == Q(s, c);
    LiveKept(cfg, s, s');
  }

  lemma ReportLive(cfg: Config, s: State, n: Uuid, i: nat)
    requires Live(cfg, s) && Inv(cfg, s) && Enabled(cfg, s, ReportOut(n, i))
    ensures Live(cfg, Next(cfg, s, ReportOut(n, i)))
  {
    var s' := Next(cfg, s, ReportOut(n, i));
    var t := NodeOf(s, n).table;
    var c := MarkReady(n, t[i]);
    assert TableOk(cfg, s, n) && t[i] in t;
    assert AddressOk(cfg, s, n, t[i]);
    SwapKeeps(s, s', n, i, c);
    forall k | Learned(s', k) ensures Learned(s, k) {
      var a :| a in NodeOf(s', k.connector).table && a.remote == k.acceptor && a.ctrl == Some(k);
      assert a in NodeOf(s, k.connector).table;
    }
    assert forall e :: Q(s', e) == Q(s, e);
    LiveKept(cfg, s, s');
  }

  lemma ReceiveLive(cfg: Config, s: State, n: Uuid, i: nat, rpcHalf: bool, insertOk: bool)
    requires Live(cfg, s) && Inv(cfg, s) && Enabled(cfg, s, Receive(n, i, rpcHalf, insertOk))
    ensures Live(cfg, Next(cfg, s, Receive(n, i, rpcHalf, insertOk)))
  {
    var b := NodeOf(s, n).table[i];
    NewRpcSilent(cfg, s, n, i, rpcHalf, insertOk);
    if b.dir == Inbound && b.remote == 0 {
      WaitingFacts(cfg, s, n, i);
      SessionReadLive(cfg, s, n, i, insertOk);
    } else {
      PlainReadLive(cfg, s, n, i, Half(b, rpcHalf).value, insertOk);
    }
  }

  lemma StepLive(cfg: Config, s: State, t: Step)
    requires Live(cfg, s) && Inv(cfg, s) && Enabled(cfg, s, t) && AddressFree(s, t)
    ensures Live(cfg, Next(cfg, s, t))
  {
    match t
    case OpenCtrl(x, y, info) => OpenLive(cfg, s, Sock(x, y, false), info);
    case OpenRpc(x, y, info) => OpenLive(cfg, s, Sock(x, y, true), info);
    case Link(x, y, id, peerAddr) =>
      AppendLive(cfg, s, Next(cfg, s, t), x, Connected(id, x, y, peerAddr),
                 NodeOf(s, x).sel + {Sock(x, y, false), Sock(x, y, true)});
    case Accept(k, id, peerAddr) =>
      AppendLive(cfg, s, Next(cfg, s, t), k.acceptor, Accepted(id, k, peerAddr), NodeOf(s, k.acceptor).sel + {k});
    case ReportOut(n, i) => ReportLive(cfg, s, n, i);
    case Receive(n, i, rpcHalf, insertOk) =>
      ReceiveLive(cfg, s, n, i, rpcHalf, insertOk);
    case SendBeat(n, i) =>
      var b := NodeOf(s, n).table[i];
      SendBeatOnce(s, n, n in cfg.ofi, b, b.ctrl.value);
      PushLive(cfg, s, Out(n, b.ctrl.value), Frame(n, Heartbeat(n, if n in cfg.ofi then n else 0)));
    case SendRpc(n, i, len) =>
      var b := NodeOf(s, n).table[i];
      if n in cfg.ofi && b.ofiReady && HEADER_SIZE + len <= EAGER_BUFFER {
        IdleLive(cfg, s, Next(cfg, s, t));
      } else {
        PushLive(cfg, s, Out(n, b.rpc.value), Frame(n, Rpc));
      }
    case Deliver(l) => IdleLive(cfg, s, Next(cfg, s, t));
  }

  lemma OpenLive(cfg: Config, s: State, k: Sock, info: PeerInfo)
    requires Live(cfg, s)
    ensures Live(cfg, Open(cfg, s, k, info))
  {
    var s0 := s.(dialed := s.dialed + {k});
    IdleLive(cfg, s, s0);
    PushLive(cfg, s0, Chan(k, true), Frame(k.connector, Session(k.connector, k.rpc, Addr(cfg, k.connector), info)));
  }

  lemma {:induction false} RunLive(cfg: Config, s: State, steps: seq<Step>, s': State)
    requires Live(cfg, s) && Inv(cfg, s) && Run(cfg, s, steps, s') && AddressesFree(cfg, s, steps)
    ensures Live(cfg, s') && Inv(cfg, s')
    decreases |steps|
  {
    if steps != [] {
      StepLive(cfg, s, steps[0]);
      StepInv(cfg, s, steps[0]);
      RunLive(cfg, Next(cfg, s, steps[0]), steps[1..], s');
    }
  }

  // ---------------------------------------------------------------- result

  /** The sockets of the connection x opened to y are accepted and read empty. */
  predicate Drained(s: State, x: Uuid, y: Uuid) {
    var c, r := Sock(x, y, false), Sock(x, y, true);
    && c in s.accepted && r in s.accepted
    && Q(s, Chan(c, true)) == [] && Q(s, Chan(c, false)) == [] && Q(s, Chan(r, true)) == []
  }

  lemma DrainedConsumed(cfg: Config, s: State, x: Uuid, y: Uuid)
    requires Inv(cfg, s) && Drained(s, x, y)
    ensures Sock(x, y, false) in s.consumed && Sock(x, y, true) in s.consumed
  {
    assert QueueOk(cfg, s, Chan(Sock(x, y, false), true));
    assert QueueOk(cfg, s, Chan(Sock(x, y, true), true));
  }

  /** The acceptor's end: one block with both sockets, ready. */
  lemma AcceptorEnd(cfg: Config, s: State, x: Uuid, y: Uuid) returns (b: Blk)
    requires Inv(cfg, s) && Live(cfg, s) && Drained(s, x, y)
    ensures b in NodeOf(s, y).table && b.dir == Inbound && b.remote == x && b.ready
    ensures b.ctrl == Some(Sock(x, y, false)) && b.rpc == Some(Sock(x, y, true))
    ensures OnFabric(s, y, x, Sock(x, y, false)) ==> b.ofiReady
  {
    DrainedConsumed(cfg, s, x, y);
    var c, r := Sock(x, y, false), Sock(x, y, true);
    var t := NodeOf(s, y).table;
    assert Attached(s, c) && Attached(s, r);
    b :| b in t && b.dir == Inbound && b.remote == x && b.ctrl == Some(c);
    var b2 :| b2 in t && b2.dir == Inbound && b2.remote == x && b2.rpc == Some(r);
    assert TableOk(cfg, s, y) && SocksOk(s);
    SameInbound(cfg, s, y, b, b2);
    assert ShapeOk(s, y, b, NodeOf(s, y).sel);
    if OnFabric(s, y, x, c) {
      var b3 :| b3 in t && b3.remote == x && b3.ctrl == Some(c) && b3.ofiReady;
      assert ShapeOk(s, y, b3, NodeOf(s, y).sel);
      SameInbound(cfg, s, y, b, b3);
    }
  }

  lemma SameInbound(cfg: Config, s: State, n: Uuid, a: Blk, b: Blk)
    requires Inv(cfg, s) && a in NodeOf(s, n).table && b in NodeOf(s, n).table
    requires a.dir == b.dir == Inbound && a.remote == b.remote != 0
    ensures a == b
  {
    var t := NodeOf(s, n).table;
    assert TableOk(cfg, s, n);
    var i :| 0 <= i < |t| && t[i] == a;
    var j :| 0 <= j < |t| && t[j] == b;
    assert i == j;
  }

  /** In every disconnect-free run, once a connection's sockets are accepted and
      nothing is left to read on them, both ends have reported READY, each naming
      the other; and if both run the fabric and address inserts succeed, both
      send over it. */
  lemma HandshakeCompletes(cfg: Config, steps: seq<Step>, s: State, x: Uuid, y: Uuid)
    requires Run(cfg, Start, steps, s) && AddressesFree(cfg, Start, steps) && Drained(s, x, y)
    ensures exists b :: b in NodeOf(s, x).table && b.dir == Outbound && b.remote == y && b.ready
                        && b.ctrl == Some(Sock(x, y, false)) && (Wide(cfg, Sock(x, y, false)) ==> b.ofiReady)
    ensures exists b :: b in NodeOf(s, y).table && b.dir == Inbound && b.remote == x && b.ready
                        && b.ctrl == Some(Sock(x, y, false)) && b.rpc == Some(Sock(x, y, true))
                        && (Wide(cfg, Sock(x, y, false)) ==> b.ofiReady)
  {
    StartLive(cfg);
    RunLive(cfg, Start, steps, s);
    var c := Sock(x, y, false);
    DrainedConsumed(cfg, s, x, y);
    assert PairOk(cfg, s, c) && c.(rpc := true) == Sock(x, y, true);
    assert Learned(s, c);
    var far := AcceptorEnd(cfg, s, x, y);
    assert TableOk(cfg, s, x) && SocksOk(s);
    var near: Blk;
    if Wide(cfg, c) {
      near :| near in NodeOf(s, x).table && near.remote == y && near.ctrl == Some(c) && near.ofiReady;
    } else {
      near :| near in NodeOf(s, x).table && near.remote == y && near.ctrl == Some(c);
    }
    assert ShapeOk(s, x, near, NodeOf(s, x).sel);
  }

  lemma StartLive(cfg: Config)
    ensures Live(cfg, Start) && Inv(cfg, Start)
  {
    assert forall n :: NodeOf(Start, n).table == [];
  }
}

/**
  The listener's handlers as the source writes them: agent blocks are objects on
  a table, and a handler finds, updates, reports and releases them in place.
  Each is proved to do what the functions of `Handshake` say.
 */
module Listener {
  import opened Common
  import opened Handshake

  /** The bits of an agent block's state word the handlers use. */
  datatype Flag =
    | New | Alive | ControlConnected | RpcConnected | PeerReadyReported | OfiAddrValid | OfiReady

  /** One entry of the connection table, with the fields of a
      `defw_agent_blk_t`; the handlers assign them one at a time. */
  class AgentBlock {
    const blkUuid: nat
    var direction: Direction
    var remoteUuid: Uuid
    var info: Option<PeerInfo>
    var addr: nat
    var iFileDesc: Option<Sock>
    var iRpcFd: Option<Sock>
    var state: set<Flag>
    var heartbeatRemote: bool
    var ofiAddr: Uuid

    /** The block as the functions of `Handshake` see it. */
    function Value(): Blk
      reads this
    {
      Blk(blkUuid, direction, remoteUuid, info, addr, iFileDesc, iRpcFd,
          New in state, Alive in state, ControlConnected in state, RpcConnected in state,
          PeerReadyReported in state, heartbeatRemote, OfiAddrValid in state, ofiAddr, OfiReady in state)
    }

    /** The block of a connection that just came in. */
    constructor (id: nat, k: Sock, peerAddr: nat)
      ensures Value() == Accepted(id, k, peerAddr)
    {
      blkUuid := id;
      direction, remoteUuid, info, addr := Inbound, 0, None, peerAddr;
      iFileDesc, iRpcFd := Some(k), None;
      state, heartbeatRemote, ofiAddr := {New}, false, 0;
    }

    /** maybe_insert_ofi_addr: idempotent, and silent when either side has no
        fabric endpoint or the insert fails. */
    method MaybeInsertAddr(announced: Uuid, up: bool, insertOk: bool)
      modifies this`ofiAddr, this`state
      ensures Value() == Learn(old(Value()), announced, up, insertOk)
    {
      if OfiAddrValid in state { return; }
      if announced == 0 { return; }
      if !up || !insertOk { return; }
      ofiAddr := announced;
      state := state + {OfiAddrValid};
    }

    /** The control channel is up: the handshake of this half is over. */
    method ControlUp()
      modifies this`state
      ensures Value() == old(Value()).(ctrlUp := true, alive := true, isNew := false)
    {
      state := state + {ControlConnected};
      state := state + {Alive};
      state := state - {New};
    }

    /** The second half of a connection pair hands its socket over. */
    method TakeOver(agent: AgentBlock, m: Body)
      requires m.Session? && agent != this
      modifies this
      ensures Value() == Absorb(old(Value()), agent.Value(), m)
    {
      if m.rpcSetup {
        iRpcFd := agent.iFileDesc;
        state := state + {RpcConnected};
      } else {
        iFileDesc := agent.iFileDesc;
        addr := agent.addr;
        ControlUp();
      }
    }

    /** Who the session message says is at the other end. */
    method Identify(m: Body)
      requires m.Session?
      modifies this`direction, this`remoteUuid, this`info
      ensures Value() == old(Value()).(dir := Inbound, remote := m.uuid, info := Some(m.info))
    {
      direction := Inbound;
      remoteUuid := m.uuid;
      info := Some(m.info);
    }

    /** The one socket of the block turns out to be the RPC channel. */
    method BecomeRpcHalf()
      modifies this`iFileDesc, this`iRpcFd, this`state
      ensures Value() == old(Value()).(rpc := old(iFileDesc), ctrl := None, rpcUp := true)
    {
      iRpcFd := iFileDesc;
      iFileDesc := None;
      state := state + {RpcConnected};
    }

    /** The first half turns the temporary block into the peer's block. */
    method BecomePeer(m: Body, up: bool, insertOk: bool)
      requires m.Session?
      modifies this
      ensures Value() == Adopt(old(Value()), m, up, insertOk)
    {
      Identify(m);
      MaybeInsertAddr(m.addr, up, insertOk);
      if m.rpcSetup {
        BecomeRpcHalf();
      } else {
        ControlUp();
      }
    }

    /** A heartbeat names the peer of a block that did not know it. */
    method LearnIdentity(uuid: Uuid) returns (learned: bool)
      modifies this`remoteUuid
      ensures learned == (old(remoteUuid) == 0)
      ensures Value() == old(Value()).(remote := if learned then uuid else old(remoteUuid))
    {
      learned := remoteUuid == 0;
      if learned {
        remoteUuid := uuid;
      }
    }

    method MarkFabricReady()
      modifies this`state
      ensures Value() == old(Value()).(ofiReady := old(Value().ofiReady || Value().addrValid))
    {
      if OfiAddrValid in state {
        state := state + {OfiReady};
      }
    }

    /** What a heartbeat teaches a block, short of reporting it ready. */
    method HearHeartbeat(m: Body, up: bool, insertOk: bool) returns (learned: bool)
      requires m.Heartbeat?
      modifies this
      ensures learned == (old(remoteUuid) == 0)
      ensures Value() == Heard(up, old(Value()), m, insertOk)
    {
      learned := LearnIdentity(m.uuid);
      MaybeInsertAddr(m.addr, up, insertOk);
      MarkFabricReady();
    }
  }

  function Vals(t: seq<AgentBlock>): seq<Blk>
    reads t
  {
    seq(|t|, i requires 0 <= i < |t| reads t => t[i].Value())
  }

  lemma ValsRemove(t: seq<AgentBlock>, i: nat)
    requires i < |t|
    ensures Vals(RemoveAt(t, i)) == RemoveAt(Vals(t), i)
  {
  }

  /** When only the entry at `e` changed, so did only its place in the view. */
  lemma ValsChanged(t: seq<AgentBlock>, was: seq<Blk>, e: nat)
    requires e < |t| == |was|
    requires forall i :: 0 <= i < |t| && i != e ==> t[i].Value() == was[i]
    ensures Vals(t) == was[e := t[e].Value()]
  {
  }

  /** What is answered and reported after a heartbeat does not depend on what it
      taught about the fabric. */
  lemma HeardSame(me: Uuid, up: bool, b: Blk, m: Body, insertOk: bool)
    requires m.Heartbeat? && b.remote == 0
    ensures var d := Heard(up, b, m, insertOk);
            && ReadyEvent(d) == ReadyEvent(b.(remote := m.uuid))
            && Beat(me, up, MarkReady(me, d)) == Beat(me, up, d)
  {
  }

  class Listener {
    const me: Uuid
    const up: bool
    var table: seq<AgentBlock>
    var sel: set<Sock>
    var events: seq<nat>
    var closed: set<Sock>
    var sent: seq<(Sock, Frame)>

    constructor (me: Uuid, up: bool)
      ensures Valid() && View() == Node([], {}, [], {}) && sent == []
    {
      this.me, this.up := me, up;
      table, sel, events, closed, sent := [], {}, [], {}, [];
    }

    ghost predicate Valid()
      reads this
    {
      forall i, j :: 0 <= i < |table| && 0 <= j < |table| && i != j ==> table[i] != table[j]
    }

    function View(): Node
      reads this, table
    {
      Node(Vals(table), sel, events, closed)
    }

    /** The table walk behind every lookup by uuid. */
    method FindByUuid(dir: Direction, u: Uuid) returns (e: nat)
      ensures e == Find(View().table, dir, u)
    {
      e := 0;
      while e < |table|
        invariant 0 <= e <= |table|
        invariant forall i :: 0 <= i < e ==> !(table[i].direction == dir && table[i].remoteUuid == u)
      {
        if table[e].direction == dir && table[e].remoteUuid == u { break; }
        e := e + 1;
      }
      FindUnique(View().table, dir, u, e);
    }

    /** The lookup a fabric message is dispatched with. */
    method FindGlobally(u: Uuid) returns (e: nat)
      ensures e == FindGlobal(View().table, u)
    {
      e := FindByUuid(Outbound, u);
      if e == |table| {
        e := FindByUuid(Inbound, u);
      }
    }

    /** find_agent_blk_by_addr: the first live block with this socket address. */
    method FindByAddr(addr: nat) returns (e: nat)
      ensures e == FindAlive(View().table, addr)
    {
      e := 0;
      while e < |table|
        invariant 0 <= e <= |table|
        invariant forall i :: 0 <= i < e ==> !(Alive in table[i].state && table[i].addr == addr)
      {
        if Alive in table[e].state && table[e].addr == addr { break; }
        e := e + 1;
      }
      FindAliveUnique(View().table, addr, e);
    }

    /** The socket overwrites the control channel of a block on the table. */
    method ReuseBlock(e: nat, k: Sock)
      requires Valid() && e < |table|
      modifies table[e]
      ensures Vals(table) == old(Vals(table))[e := old(table[e].Value()).(ctrl := Some(k))]
    {
      ghost var was := Vals(table);
      table[e].iFileDesc := Some(k);
      ValsChanged(table, was, e);
    }

    method AddBlock(id: nat, k: Sock, peerAddr: nat)
      requires Valid()
      modifies this`table
      ensures Valid()
      ensures Vals(table) == old(Vals(table)) + [Accepted(id, k, peerAddr)]
    {
      var b := new AgentBlock(id, k, peerAddr);
      table := table + [b];
    }

    /** A connection comes in: a live block with its address is reused, otherwise
        it gets a block of its own. */
    method Accept(id: nat, k: Sock, peerAddr: nat)
      requires Valid()
      modifies this`table, this`sel, table
      ensures Valid()
      ensures View() == HandleAccept(old(View()), id, k, peerAddr)
    {
      var e := FindByAddr(peerAddr);
      if e < |table| {
        ReuseBlock(e, k);
      } else {
        AddBlock(id, k, peerAddr);
      }
      sel := sel + {k};
    }

    method SendHeartbeat(b: AgentBlock)
      modifies this`sent
      ensures sent == old(sent) + Beat(me, up, b.Value())
    {
      if b.iFileDesc.Some? {
        sent := sent + [(b.iFileDesc.value, Frame(me, Heartbeat(me, if up then me else 0)))];
      }
    }

    /** defw_agent_report_peer_ready: the event is raised once per block. */
    method ReportPeerReady(b: AgentBlock)
      modifies b`state, b`heartbeatRemote, this`events
      ensures b.Value() == MarkReady(me, old(b.Value()))
      ensures events == old(events) + ReadyEvent(old(b.Value()))
    {
      if b.remoteUuid == 0 || ControlConnected !in b.state || RpcConnected !in b.state { return; }
      if PeerReadyReported in b.state { return; }
      b.state := b.state + {PeerReadyReported};
      b.heartbeatRemote := b.remoteUuid != me;
      events := events + [b.blkUuid];
    }

    /** listener_report_peer_ready: report, then send our identity. */
    method ListenerReportReady(b: AgentBlock)
      modifies b, this`events, this`sent
      ensures b.Value() == MarkReady(me, old(b.Value()))
      ensures events == old(events) + ReadyEvent(old(b.Value()))
      ensures sent == old(sent) + if ReadyPending(old(b.Value())) then Beat(me, up, b.Value()) else []
    {
      if b.remoteUuid == 0 || ControlConnected !in b.state || RpcConnected !in b.state { return; }
      if PeerReadyReported in b.state { return; }
      ReportPeerReady(b);
      SendHeartbeat(b);
    }

    /** Drop the block at `i` from the table; its sockets stay open while it is NEW. */
    method ReleaseTemporary(i: nat)
      requires Valid() && i < |table|
      modifies this`table, this`closed
      ensures Valid()
      ensures Vals(table) == RemoveAt(old(Vals(table)), i)
      ensures closed == old(closed) + Closes(old(Vals(table)[i]))
    {
      var b := table[i];
      ValsRemove(table, i);
      table := table[..i] + table[i + 1..];
      if New !in b.state {
        closed := closed + SockSet(b.iFileDesc) + SockSet(b.iRpcFd);
      }
    }

    /** What the block already on the table takes from the temporary one. */
    method UpdateExisting(existing: AgentBlock, agent: AgentBlock, m: Body, insertOk: bool)
      requires m.Session? && existing != agent
      modifies existing, this`sel, this`events, this`sent
      ensures var b := Learn(Absorb(old(existing.Value()), agent.Value(), m), m.addr, up, insertOk);
              && existing.Value() == MarkReady(me, b)
              && events == old(events) + ReadyEvent(b)
              && sent == old(sent) + if ReadyPending(b) then Beat(me, up, MarkReady(me, b)) else []
      ensures sel == if m.rpcSetup then old(sel) else old(sel) + SockSet(old(existing.iRpcFd))
    {
      existing.TakeOver(agent, m);
      if !m.rpcSetup {
        sel := sel + SockSet(existing.iRpcFd);
      }
      existing.MaybeInsertAddr(m.addr, up, insertOk);
      ListenerReportReady(existing);
    }

    method UpdateEntry(i: nat, e: nat, m: Body, insertOk: bool)
      requires Valid() && i < |table| && e < |table| && e != i && m.Session?
      modifies table[e], this`sel, this`events, this`sent
      ensures var t := old(Vals(table));
              var b := Learn(Absorb(t[e], t[i], m), m.addr, up, insertOk);
              && Vals(table) == t[e := MarkReady(me, b)]
              && events == old(events) + ReadyEvent(b)
              && sent == old(sent) + (if ReadyPending(b) then Beat(me, up, MarkReady(me, b)) else [])
              && sel == if m.rpcSetup then old(sel) else old(sel) + SockSet(t[e].rpc)
    {
      ghost var was := Vals(table);
      var agent, existing := table[i], table[e];
      assert agent != existing;
      UpdateExisting(existing, agent, m, insertOk);
      ValsChanged(table, was, e);
    }

    /** The branch of process_msg_session_info for a peer the table holds. */
    method MergeSession(i: nat, e: nat, m: Body, insertOk: bool)
      requires Valid() && i < |table| && e < |table| && e != i && m.Session?
      requires e == Find(View().table, Inbound, m.uuid)
      modifies this`table, this`sel, this`events, this`closed, this`sent, table
      ensures Valid()
      ensures var o := HandleSession(me, up, old(View()), i, m, insertOk);
              View() == o.node && sent == old(sent) + o.sends && !o.fault
    {
      UpdateEntry(i, e, m, insertOk);
      assert Vals(table)[i] == old(Vals(table))[i];
      ReleaseTemporary(i);
    }

    /** The branch for a peer heard of for the first time. */
    method AdoptSession(i: nat, m: Body, insertOk: bool)
      requires Valid() && i < |table| && m.Session?
      requires Find(View().table, Inbound, m.uuid) == |table|
      modifies this`sel, table[i]
      ensures Valid()
      ensures var o := HandleSession(me, up, old(View()), i, m, insertOk);
              View() == o.node && o.sends == [] && !o.fault
    {
      ghost var was := View();
      var agent := table[i];
      agent.BecomePeer(m, up, insertOk);
      if m.rpcSetup {
        sel := sel - SockSet(agent.iRpcFd);
      }
      ValsChanged(table, was.table, i);
    }

    /** process_msg_session_info on the block at `i`; `fault` is the assertion
        that the block found is not the block itself. */
    method ProcessSessionInfo(i: nat, m: Body, insertOk: bool) returns (fault: bool)
      requires Valid() && i < |table| && m.Session?
      modifies this`table, this`sel, this`events, this`closed, this`sent, table
      ensures Valid()
      ensures var o := HandleSession(me, up, old(View()), i, m, insertOk);
              View() == o.node && sent == old(sent) + o.sends && fault == o.fault
    {
      var e := FindByUuid(Inbound, m.uuid);
      fault := e == i;
      if e == |table| {
        AdoptSession(i, m, insertOk);
      } else if e != i {
        MergeSession(i, e, m, insertOk);
      }
    }

    /** A heartbeat that named its sender: answer it, then report the peer. */
    method AnswerFirst(b: AgentBlock)
      modifies b`state, b`heartbeatRemote, this`events, this`sent
      ensures b.Value() == MarkReady(me, old(b.Value()))
      ensures events == old(events) + ReadyEvent(old(b.Value()))
      ensures sent == old(sent) + if up then Beat(me, up, b.Value()) else []
    {
      if up {
        SendHeartbeat(b);
      }
      ReportPeerReady(b);
    }

    /** process_msg_hb on the block at `i`. */
    method ProcessHeartbeat(i: nat, m: Body, insertOk: bool)
      requires Valid() && i < |table| && m.Heartbeat?
      modifies this`events, this`sent, table[i]
      ensures Valid()
      ensures var o := HandleHeartbeat(me, up, old(View()), i, m, insertOk);
              View() == o.node && sent == old(sent) + o.sends && !o.fault
    {
      ghost var was := View();
      var agent := table[i];
      var learned := agent.HearHeartbeat(m, up, insertOk);
      if learned {
        HeardSame(me, up, was.table[i], m, insertOk);
        AnswerFirst(agent);
      }
      assert agent.Value() == HeartbeatBlk(me, up, was.table[i], m, insertOk);
      ValsChanged(table, was.table, i);
    }

    /** process_agent_message after the frame was read: check the sender uuid
        against the block, then run the handler of the message type. */
    method ProcessMessage(i: nat, f: Frame, insertOk: bool) returns (fault: bool)
      requires Valid() && i < |table|
      modifies this`table, this`sel, this`events, this`closed, this`sent, table
      ensures Valid()
      ensures var o := Process(me, up, old(View()), i, f, insertOk);
              View() == o.node && sent == old(sent) + o.sends && fault == o.fault
    {
      assert Vals(table)[i] == table[i].Value();
      if table[i].remoteUuid != 0 && table[i].remoteUuid != f.stamp { return true; }
      fault := false;
      match f.body
      case Session(_, _, _, _) => fault := ProcessSessionInfo(i, f.body, insertOk);
      case Heartbeat(_, _) => ProcessHeartbeat(i, f.body, insertOk);
      case Rpc =>
    }
  }

  /** `FindAlive` is the only index with its three properties. */
  lemma FindAliveUnique(t: seq<Blk>, addr: nat, e: nat)
    requires e <= |t|
    requires e < |t| ==> t[e].alive && t[e].peerAddr == addr
    requires forall i :: 0 <= i < e ==> !(t[i].alive && t[i].peerAddr == addr)
    ensures e == FindAlive(t, addr)
  {
  }

  /** `Find` is the only index with its three properties. */
  lemma FindUnique(t: seq<Blk>, dir: Direction, u: Uuid, e: nat)
    requires e <= |t|
    requires e < |t| ==> t[e].dir == dir && t[e].remote == u
    requires forall i :: 0 <= i < e ==> !(t[i].dir == dir && t[i].remote == u)
    ensures e == Find(t, dir, u)
  {
  }
}

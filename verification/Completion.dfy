/**
  A handshake from its first socket to fabric traffic in both directions: the
  conditions of the results about runs are met by a run, step by step.
 */
module Completion {
  import opened Common
  import opened Handshake
  import opened Fabric
  import opened Quiescence
  import Sockets

  /** Processes 1 and 2 both run the fabric; 1 connects to 2. */
  const Cfg := Config({1, 2}, true)
  const Ctrl := Sock(1, 2, false)
  const Rpcs := Sock(1, 2, true)

  /** What the handshake of these two reads and writes. */
  datatype Sight = Sight(
    near: seq<Blk>, nearSel: set<Sock>, far: seq<Blk>, farSel: set<Sock>,
    ctrlOut: seq<Frame>, ctrlBack: seq<Frame>, rpcOut: seq<Frame>,
    dialed: set<Sock>, accepted: set<Sock>, linked: set<(Uuid, Uuid)>,
    fabric: multiset<Letter>, handled: seq<Handled>)

  function Look(s: State): Sight {
    Sight(NodeOf(s, 1).table, NodeOf(s, 1).sel, NodeOf(s, 2).table, NodeOf(s, 2).sel,
          Q(s, Chan(Ctrl, true)), Q(s, Chan(Ctrl, false)), Q(s, Chan(Rpcs, true)),
          s.dialed, s.accepted, s.linked, s.fabric, s.handled)
  }

  function Hi(info: PeerInfo, rpc: bool): Frame { Frame(1, Session(1, rpc, 1, info)) }

  const Near := Connected(10, 1, 2, 7)
  const NearReady := HeartbeatBlk(1, true, Near, Heartbeat(2, 2), true)

  function Adopted(info: PeerInfo): Blk {
    Adopt(Accepted(20, Ctrl, 8), Hi(info, false).body, true, true)
  }

  function Far(info: PeerInfo): Blk {
    Merged(2, 20, Accepted(20, Ctrl, 8), Accepted(21, Rpcs, 9), Hi(info, false).body, true, true)
  }

  function FarReady(info: PeerInfo): Blk {
    HeartbeatBlk(2, true, Far(info), Heartbeat(1, 1), true)
  }

  /** The connection as the connect thread leaves it. */
  function Dialed(info: PeerInfo): Sight {
    Sight([Near], {Ctrl, Rpcs}, [], {}, [Hi(info, false)], [], [Hi(info, true)], {Ctrl, Rpcs}, {}, {(1, 2)},
          multiset{}, [])
  }

  function BothAccepted(info: PeerInfo): Sight {
    Dialed(info).(far := [Accepted(20, Ctrl, 8), Accepted(21, Rpcs, 9)], farSel := {Ctrl, Rpcs},
                  accepted := {Ctrl, Rpcs})
  }

  function BothRead(info: PeerInfo): Sight {
    BothAccepted(info).(far := [Far(info)], ctrlOut := [], rpcOut := [], ctrlBack := [Frame(2, Heartbeat(2, 2))])
  }

  function Done(info: PeerInfo): Sight {
    BothRead(info).(near := [NearReady], far := [FarReady(info)], ctrlBack := [])
  }

  ghost predicate Leads(s: State, t: Step) {
    Enabled(Cfg, s, t) && AddressFree(s, t)
  }

  lemma Dial(info: PeerInfo) returns (s1: State, s2: State, s3: State)
    ensures Leads(Start, OpenCtrl(1, 2, info)) && s1 == Next(Cfg, Start, OpenCtrl(1, 2, info))
    ensures Leads(s1, OpenRpc(1, 2, info)) && s2 == Next(Cfg, s1, OpenRpc(1, 2, info))
    ensures Leads(s2, Link(1, 2, 10, 7)) && s3 == Next(Cfg, s2, Link(1, 2, 10, 7))
    ensures Look(s3) == Dialed(info)
  {
    s1 := Next(Cfg, Start, OpenCtrl(1, 2, info));
    s2 := Next(Cfg, s1, OpenRpc(1, 2, info));
    s3 := Next(Cfg, s2, Link(1, 2, 10, 7));
    assert s3.linked == {(1, 2)} && s3.dialed == {Ctrl, Rpcs};
  }

  lemma AcceptControl(info: PeerInfo, s: State) returns (s1: State)
    requires Look(s) == Dialed(info)
    ensures Leads(s, Accept(Ctrl, 20, 8)) && s1 == Next(Cfg, s, Accept(Ctrl, 20, 8))
    ensures Look(s1) == Dialed(info).(far := [Accepted(20, Ctrl, 8)], farSel := {Ctrl}, accepted := {Ctrl})
  {
    s1 := Next(Cfg, s, Accept(Ctrl, 20, 8));
    assert NodeOf(s1, 2).table == [Accepted(20, Ctrl, 8)] && NodeOf(s1, 2).sel == {Ctrl};
  }

  lemma AcceptRpc(info: PeerInfo, s: State) returns (s1: State)
    requires Look(s) == Dialed(info).(far := [Accepted(20, Ctrl, 8)], farSel := {Ctrl}, accepted := {Ctrl})
    ensures Leads(s, Accept(Rpcs, 21, 9)) && s1 == Next(Cfg, s, Accept(Rpcs, 21, 9))
    ensures Look(s1) == BothAccepted(info)
  {
    s1 := Next(Cfg, s, Accept(Rpcs, 21, 9));
    assert NodeOf(s1, 2).table == [Accepted(20, Ctrl, 8), Accepted(21, Rpcs, 9)] && NodeOf(s1, 2).sel == {Ctrl, Rpcs};
  }

  /** The control session is read first: its block becomes the peer's. */
  lemma ReadControl(info: PeerInfo, s: State) returns (s1: State)
    requires Look(s) == BothAccepted(info)
    ensures Leads(s, Receive(2, 0, false, true)) && s1 == Next(Cfg, s, Receive(2, 0, false, true))
    ensures Look(s1) == BothAccepted(info).(far := [Adopted(info), Accepted(21, Rpcs, 9)], ctrlOut := [])
  {
    s1 := Next(Cfg, s, Receive(2, 0, false, true));
    var t := NodeOf(s, 2).table;
    assert Find(t, Inbound, 1) == |t|;
    assert t[0 := Adopted(info)] == [Adopted(info), Accepted(21, Rpcs, 9)];
  }

  /** The RPC session is merged into it, and a heartbeat goes back. */
  lemma ReadRpc(info: PeerInfo, s: State) returns (s1: State)
    requires Look(s) == BothAccepted(info).(far := [Adopted(info), Accepted(21, Rpcs, 9)], ctrlOut := [])
    ensures Leads(s, Receive(2, 1, false, true)) && s1 == Next(Cfg, s, Receive(2, 1, false, true))
    ensures Look(s1) == BothRead(info)
  {
    s1 := Next(Cfg, s, Receive(2, 1, false, true));
    var t := NodeOf(s, 2).table;
    assert Find(t, Inbound, 1) == 0;
    PairMerges(2, true, Accepted(20, Ctrl, 8), t[1], Hi(info, false).body, Hi(info, true).body, true, true);
    assert RemoveAt(t[0 := Far(info)], 1) == [Far(info)];
    var o := HandleSession(2, true, NodeOf(s, 2), 1, Hi(info, true).body, true);
    assert o.node.table == [Far(info)] && o.node.sel == {Ctrl, Rpcs} && o.sends == Beat(2, true, Far(info));
    var p := Pop(s, Chan(Rpcs, true));
    var s0 := SetNode(p.(consumed := p.consumed + {Rpcs}), 2, o.node).(fault := s.fault || o.fault);
    SendBeatOnce(s0, 2, true, Far(info), Ctrl);
  }

  /** The heartbeat tells the connector who answered, and it answers in turn. */
  lemma ReadBeat(info: PeerInfo, s: State) returns (s1: State)
    requires Look(s) == BothRead(info)
    ensures Leads(s, Receive(1, 0, false, true)) && s1 == Next(Cfg, s, Receive(1, 0, false, true))
    ensures Look(s1) == BothRead(info).(near := [NearReady], ctrlBack := [], ctrlOut := [Frame(1, Heartbeat(1, 1))])
  {
    s1 := Next(Cfg, s, Receive(1, 0, false, true));
    var o := HandleHeartbeat(1, true, NodeOf(s, 1), 0, Heartbeat(2, 2), true);
    assert o.node.table == [NearReady] && o.sends == Beat(1, true, NearReady);
    var s0 := SetNode(Pop(s, Chan(Ctrl, false)), 1, o.node).(fault := s.fault || o.fault);
    SendBeatOnce(s0, 1, true, NearReady, Ctrl);
  }

  lemma ReadAnswer(info: PeerInfo, s: State) returns (s1: State)
    requires Look(s) == BothRead(info).(near := [NearReady], ctrlBack := [], ctrlOut := [Frame(1, Heartbeat(1, 1))])
    ensures Leads(s, Receive(2, 0, false, true)) && s1 == Next(Cfg, s, Receive(2, 0, false, true))
    ensures Look(s1) == Done(info)
  {
    s1 := Next(Cfg, s, Receive(2, 0, false, true));
  }

  lemma Back(s: State, t: Step, rest: seq<Step>, s': State) returns (steps: seq<Step>)
    requires Leads(s, t) && Run(Cfg, Next(Cfg, s, t), rest, s') && AddressesFree(Cfg, Next(Cfg, s, t), rest)
    ensures |steps| == 1 + |rest| && Run(Cfg, s, steps, s') && AddressesFree(Cfg, s, steps)
  {
    Sockets.RunBack(Cfg, s, t, rest, s');
    steps := [t] + rest;
  }

  lemma BeatsRun(info: PeerInfo, s: State) returns (steps: seq<Step>, s': State)
    requires Look(s) == BothRead(info)
    ensures |steps| == 2 && Run(Cfg, s, steps, s') && AddressesFree(Cfg, s, steps) && Look(s') == Done(info)
  {
    var s1 := ReadBeat(info, s);
    s' := ReadAnswer(info, s1);
    steps := Back(s1, Receive(2, 0, false, true), [], s');
    steps := Back(s, Receive(1, 0, false, true), steps, s');
  }

  lemma SessionsRun(info: PeerInfo, s: State) returns (steps: seq<Step>, s': State)
    requires Look(s) == BothAccepted(info)
    ensures |steps| == 4 && Run(Cfg, s, steps, s') && AddressesFree(Cfg, s, steps) && Look(s') == Done(info)
  {
    var s1 := ReadControl(info, s);
    var s2 := ReadRpc(info, s1);
    steps, s' := BeatsRun(info, s2);
    steps := Back(s1, Receive(2, 1, false, true), steps, s');
    steps := Back(s, Receive(2, 0, false, true), steps, s');
  }

  lemma AcceptsRun(info: PeerInfo, s: State) returns (steps: seq<Step>, s': State)
    requires Look(s) == Dialed(info)
    ensures |steps| == 6 && Run(Cfg, s, steps, s') && AddressesFree(Cfg, s, steps) && Look(s') == Done(info)
  {
    var s1 := AcceptControl(info, s);
    var s2 := AcceptRpc(info, s1);
    steps, s' := SessionsRun(info, s2);
    steps := Back(s1, Accept(Rpcs, 21, 9), steps, s');
    steps := Back(s, Accept(Ctrl, 20, 8), steps, s');
  }

  /** A run from nothing to a drained connection that both ends use over the
      fabric: the results about such runs are not vacuous. */
  lemma HandshakeRun(info: PeerInfo) returns (steps: seq<Step>, s: State)
    ensures |steps| == 9 && Run(Cfg, Start, steps, s) && AddressesFree(Cfg, Start, steps)
    ensures Drained(s, 1, 2)
    ensures NodeOf(s, 1).table == [NearReady] && NearReady.ofiReady && NearReady.ready
    ensures NodeOf(s, 2).table == [FarReady(info)] && FarReady(info).ofiReady && FarReady(info).ready
  {
    var s1, s2, s3 := Dial(info);
    steps, s := AcceptsRun(info, s3);
    assert Look(s) == Done(info);
    steps := Back(s2, Link(1, 2, 10, 7), steps, s);
    steps := Back(s1, OpenRpc(1, 2, info), steps, s);
    steps := Back(Start, OpenCtrl(1, 2, info), steps, s);
  }

  /** A small RPC and its answer cross the fabric, and are handled on the blocks of
      this connection; one that does not fit the receive buffer goes over TCP. */
  lemma Traffic(info: PeerInfo, s: State) returns (s1: State, s2: State, s3: State)
    requires Look(s) == Done(info)
    ensures Leads(s, SendRpc(1, 0, 100)) && s1 == Next(Cfg, s, SendRpc(1, 0, 100))
    ensures Leads(s1, Deliver(Letter(1, 2, 100))) && s2 == Next(Cfg, s1, Deliver(Letter(1, 2, 100)))
    ensures Leads(s2, SendRpc(2, 0, 262117)) && s3 == Next(Cfg, s2, SendRpc(2, 0, 262117))
    ensures s2.handled == [Handled(Letter(1, 2, 100), 20)] && s2.fabric == multiset{} && !s2.fault == !s.fault
    ensures s3.fabric == multiset{} && Q(s3, Chan(Rpcs, false)) == Q(s, Chan(Rpcs, false)) + [Frame(2, Rpc)]
  {
    s1 := Next(Cfg, s, SendRpc(1, 0, 100));
    assert s1.fabric == multiset{Letter(1, 2, 100)};
    s2 := Next(Cfg, s1, Deliver(Letter(1, 2, 100)));
    assert NodeOf(s1, 2).table == [FarReady(info)] && FindGlobal([FarReady(info)], 1) == 0;
    s3 := Next(Cfg, s2, SendRpc(2, 0, 262117));
  }
}

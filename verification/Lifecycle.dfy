/**
  The life of one agent block: its reference count, the share of it the
  connection table owns, its descriptors, and the READY / LOST / REMOVED events
  it raises.
 */
module Lifecycle {
  datatype PeerEvent = Ready | Lost | Removed

  /** Who owns the block's own share of the count: the connect thread that
      allocated it, the connection table, or nobody any more. */
  datatype Place = Connecting | Linked | Unlinked

  /** What is known about the peer and the two channels. */
  datatype Channels = Channels(named: bool, ctrl: bool, rpc: bool)

  /** Which of the two descriptors are open, and how many were overwritten while
      they were: nobody can close those any more. */
  datatype Fds = Fds(ctrl: bool, rpc: bool, stray: nat)

  /** The once-only event bits, and the events raised so far. */
  datatype Said = Said(ready: bool, lost: bool, removed: bool, trace: seq<PeerEvent>)

  datatype Status = Success | Failure

  /** An outbound connect still owes its completion, and what it was told. */
  datatype Connect = Connect(pending: bool, told: seq<Status>)

  /** `freed` counts the calls of free_agent_blk; `fault` records a failed
      assertion or the use of a freed block. */
  datatype Life = Life(
    refCount: int,
    place: Place,
    dead: bool,
    isNew: bool,
    fds: Fds,
    chan: Channels,
    said: Said,
    connect: Connect,
    freed: nat,
    fault: bool)

  const NoChannels := Channels(false, false, false)
  const Nothing := Said(false, false, false, [])

  /** A block as `accept` puts it on the table, and as a connect thread allocates it. */
  const Inbound := Life(1, Linked, false, true, Fds(true, false, 0), NoChannels, Nothing, Connect(false, []), 0, false)
  const Outbound := Life(1, Connecting, false, true, Fds(false, false, 0),
       NoChannels, Nothing, Connect(true, []), 0, false)

  function Complete(c: Connect): Connect {
    if c.pending then Connect(false, c.told + [Success]) else c
  }

  function ReportReady(b: Life): Life {
    if b.chan.named && b.chan.ctrl && b.chan.rpc && !b.said.ready then
      b.(said := b.said.(ready := true, trace := b.said.trace + [Ready]), connect := Complete(b.connect))
    else b
  }

  function ReportLost(b: Life): Life {
    if b.said.ready && !b.said.lost then b.(said := b.said.(lost := true, trace := b.said.trace + [Lost])) else b
  }

  function ReportRemoved(b: Life): Life {
    if b.said.ready && !b.said.removed then b.(said := b.said.(removed := true, trace := b.said.trace + [Removed]))
    else b
  }

  function Close(f: Fds): Fds { f.(ctrl := false, rpc := false) }

  function Free(b: Life): Life {
    b.(freed := b.freed + 1, fault := b.fault || b.freed > 0)
  }

  function FreeIfUnreferenced(b: Life): Life {
    if b.refCount == 0 then Free(ReportRemoved(b)) else b
  }

  /** The first death report: the table gives up its share. */
  function Bury(b: Life): Life {
    var c := ReportLost(b.(dead := true, chan := b.chan.(ctrl := false, rpc := false)));
    FreeIfUnreferenced(c.(place := Unlinked, refCount := c.refCount - 1, fds := Close(c.fds),
                          fault := c.fault || c.refCount <= 0))
  }

  /** The last reference of a block nobody reported dead. */
  function Retire(b: Life, dead: bool): Life {
    var c := b.(place := Unlinked);
    if c.isNew && !dead then Free(c)     // its socket now belongs to another block
    else Free(ReportRemoved((if dead then ReportLost(c) else c).(fds := Close(c.fds))))
  }

  /** defw_release_agent_blk_unlocked */
  function ReleaseBlk(b: Life, dead: bool): Life {
    var c := b.(refCount := b.refCount - 1, fault := b.fault || b.refCount <= 0 || b.freed > 0);
    if c.dead then FreeIfUnreferenced(c)
    else if c.refCount == 0 then Retire(c, dead)
    else if dead then Bury(c)
    else c
  }

  /** defw_release_agent_conn */
  function ReleaseConn(b: Life): Life {
    var c := b.(refCount := b.refCount - 1, fault := b.fault || b.refCount <= 0 || b.freed > 0 || !b.isNew);
    if c.refCount == 0 then Free(c.(place := Unlinked)) else c
  }

  function AcquireBlk(b: Life): Life {
    b.(refCount := b.refCount + 1, fault := b.fault || b.freed > 0)
  }

  /** Where a connect thread gives up. */
  datatype Stage = CtrlSocket | CtrlSession | RpcSocket | RpcSession

  /** The status it then passes on: after the control session went out the return
      code is OK, and a failing RPC socket does not change it. */
  function StatusAt(at: Stage): Status {
    if at.RpcSocket? then Success else Failure
  }

  /** The connect thread gives up before linking: free, then tell the caller. */
  function AbandonConnect(b: Life, at: Stage): Life {
    Free(b.(place := Unlinked, fds := Close(b.fds), connect := Connect(false, b.connect.told + [StatusAt(at)])))
  }

  /** The control descriptor is assigned: the block's own first socket, or another's. */
  function GainCtrl(b: Life): Life {
    b.(chan := b.chan.(ctrl := true), isNew := false,
       fds := b.fds.(ctrl := true, stray := b.fds.stray + if b.chan.ctrl && b.fds.ctrl then 1 else 0))
  }

  /** The RPC descriptor is assigned; `own` moves the block's first socket there. */
  function GainRpc(b: Life, own: bool): Life {
    b.(chan := b.chan.(rpc := true),
       fds := Fds(b.fds.ctrl && !own, true, b.fds.stray + if b.fds.rpc then 1 else 0))
  }

  /** defw_send without an RPC channel opens one of its own: the socket may fail,
      and so may the session message on it. */
  function ReopenRpc(b: Life, connected: bool, greeted: bool): Life {
    b.(chan := b.chan.(rpc := connected && greeted),
       fds := b.fds.(rpc := connected, stray := b.fds.stray + if b.fds.rpc then 1 else 0))
  }

  /** `fault` goes up at every use of a freed block, at a reference given back that
      nobody held and at a failed assertion, and never comes down. */
  lemma FaultsSeen(b: Life, dead: bool)
    ensures b.fault || b.freed > 0 ==> AcquireBlk(b).fault && ReleaseBlk(b, dead).fault && ReleaseConn(b).fault
    ensures b.fault || b.freed > 0 ==> Free(b).fault
    ensures b.fault || b.refCount <= 0 ==> ReleaseBlk(b, dead).fault && ReleaseConn(b).fault && Bury(b).fault
    ensures !b.isNew ==> ReleaseConn(b).fault
  {
  }

  // ---------------------------------------------------------------- runs

  /** A block together with the number of references its holders still owe. */
  datatype Held = Held(b: Life, holders: nat)

  datatype Op =
    | Find                      // a lookup or a table walk takes a reference
    | Release(dead: bool)       // a holder gives its reference back
    | ReleaseWalk               // the new-agent walk gives its reference back
    | ReleaseShare(dead: bool)  // the listener releases the table's own share
    | Link | Abandon(at: Stage) // the connect thread finishes
    | SetCtrl | SetRpc(own: bool) | Name | Report
    | Reconnect(connected: bool, greeted: bool)   // a holder sends without an RPC channel

  predicate Allowed(h: Held, o: Op) {
    match o
    case Find => h.b.place.Linked?
    case Release(_) => h.holders > 0
    case ReleaseWalk => h.holders > 0 && h.b.isNew
    case ReleaseShare(_) => h.b.place.Linked? && h.holders == 0
    case Link => h.b.place.Connecting?
    case Abandon(_) => h.b.place.Connecting? && h.b.connect.pending
    case SetCtrl => !h.b.place.Unlinked?
    case SetRpc(own) => !h.b.place.Unlinked? && (own ==> h.b.fds.ctrl && !h.b.chan.ctrl)
    case Name => h.b.place.Linked? || h.holders > 0
    case Report => h.b.place.Linked? || h.holders > 0
    case Reconnect(_, _) => h.holders > 0 && h.b.chan.named && !h.b.chan.rpc
  }

  function Apply(h: Held, o: Op): Held
    requires Allowed(h, o)
  {
    match o
    case Find => Held(AcquireBlk(h.b), h.holders + 1)
    case Release(dead) => Held(ReleaseBlk(h.b, dead), h.holders - 1)
    case ReleaseWalk => Held(ReleaseConn(h.b), h.holders - 1)
    case ReleaseShare(dead) => Held(ReleaseBlk(h.b, dead), h.holders)
    case Link => h.(b := h.b.(place := Linked))
    case Abandon(at) => h.(b := AbandonConnect(h.b, at))
    case SetCtrl => h.(b := GainCtrl(h.b))
    case SetRpc(own) => h.(b := GainRpc(h.b, own))
    case Name => h.(b := h.b.(chan := h.b.chan.(named := true)))
    case Report => h.(b := ReportReady(h.b))
    case Reconnect(connected, greeted) => h.(b := ReopenRpc(h.b, connected, greeted))
  }

  predicate Reaches(h: Held, ops: seq<Op>, h': Held)
    decreases |ops|
  {
    if ops == [] then h == h'
    else Allowed(h, ops[0]) && Reaches(Apply(h, ops[0]), ops[1..], h')
  }

  /** What the table, or the connect thread before it, contributes to the count. */
  function Share(b: Life): nat {
    if b.place.Unlinked? then 0 else 1
  }

  predicate CountOk(h: Held) {
    && !h.b.fault
    && (h.b.freed == 0 ==> h.b.refCount == Share(h.b) + h.holders && h.b.refCount > 0)
    && (h.b.freed > 0 ==> h.b.freed == 1 && h.holders == 0 && Share(h.b) == 0)
    && (h.b.place.Connecting? ==> h.holders == 0)
    && (h.b.freed == 0 ==> (h.b.dead <==> Share(h.b) == 0))
  }

  /** A channel that is up has its descriptor, as long as the block lives. */
  predicate FdsOk(b: Life) {
    && (b.freed == 0 && b.chan.ctrl ==> b.fds.ctrl)
    && (b.freed == 0 && b.chan.rpc ==> b.fds.rpc)
    && (b.freed > 0 && !b.dead && (b.fds.ctrl || b.fds.rpc) ==> b.isNew)
  }

  /** The grammar: nothing, or READY, then at most one LOST, then at most one REMOVED. */
  function Story(ready: bool, lost: bool, removed: bool): seq<PeerEvent> {
    if !ready then []
    else if lost then (if removed then [Ready, Lost, Removed] else [Ready, Lost])
    else if removed then [Ready, Removed] else [Ready]
  }

  /** The event bits and the trace tell the same story. */
  predicate TraceOk(b: Life) {
    && b.said.trace == Story(b.said.ready, b.said.lost, b.said.removed)
    && (b.said.lost || b.said.removed ==> b.said.ready)
    && (b.said.lost ==> b.place.Unlinked?)
    && (b.said.ready ==> (b.said.removed <==> b.freed > 0))
    && (b.isNew ==> !b.chan.ctrl && !b.said.ready)
    && (b.dead ==> !b.chan.ctrl && (b.said.ready ==> b.said.lost))
    && (b.place.Connecting? ==> !b.chan.named && !b.said.ready)
    && (b.connect.pending ==> b.connect.told == [])
    && |b.connect.told| <= 1
  }

  predicate LifeInv(h: Held) {
    CountOk(h) && TraceOk(h.b) && FdsOk(h.b)
  }

  lemma ApplyKeeps(h: Held, o: Op)
    requires LifeInv(h) && Allowed(h, o)
    ensures LifeInv(Apply(h, o))
  {
    match o
    case Release(dead) => ReleaseKeeps(h.b, h.holders, 1, dead);
    case ReleaseShare(dead) => ReleaseKeeps(h.b, 0, 0, dead);
    case ReleaseWalk =>
    case Find =>
    case Link =>
    case Abandon(_) =>
    case SetCtrl =>
    case SetRpc(_) =>
    case Name =>
    case Report =>
    case Reconnect(_, _) =>
  }

  /** A holder's release, or the table's own when there is no holder. */
  lemma ReleaseKeeps(b: Life, holders: nat, given: nat, dead: bool)
    requires LifeInv(Held(b, holders)) && b.freed == 0
    requires (given == 1 && holders > 0) || (given == 0 == holders && b.place.Linked?)
    ensures LifeInv(Held(ReleaseBlk(b, dead), holders - given))
  {
  }

  lemma {:induction false} RunKeeps(h: Held, ops: seq<Op>, h': Held)
    requires LifeInv(h) && Reaches(h, ops, h')
    ensures LifeInv(h')
    decreases |ops|
  {
    if ops != [] {
      ApplyKeeps(h, ops[0]);
      RunKeeps(Apply(h, ops[0]), ops[1..], h');
    }
  }

  // ---------------------------------------------------------------- results

  predicate Begins(h: Held) {
    h == Held(Inbound, 0) || h == Held(Outbound, 0)
  }

  /** In every run of disciplined holders the count is the table's share plus the
      references still out, no assertion fails, and the block is freed at most
      once: unlinked and with nobody holding it. */
  lemma ReferenceCountSafe(h: Held, ops: seq<Op>, h': Held)
    requires Begins(h) && Reaches(h, ops, h')
    ensures !h'.b.fault
    ensures h'.b.freed <= 1
    ensures h'.b.freed == 0 ==> h'.b.refCount == Share(h'.b) + h'.holders > 0
    ensures h'.b.freed == 1 ==> h'.b.place.Unlinked? && h'.holders == 0
    ensures h'.holders > 0 ==> h'.b.freed == 0
  {
    RunKeeps(h, ops, h');
  }

  /** The table's share is given up exactly once: it never comes back, however
      many holders go on to report the same death. */
  lemma {:induction false} ShareGivenUpOnce(h: Held, ops: seq<Op>, h': Held)
    requires LifeInv(h) && Share(h.b) == 0 && Reaches(h, ops, h')
    ensures Share(h'.b) == 0
    ensures h'.b.freed == 0 ==> h'.b.refCount == h'.holders
    decreases |ops|
  {
    if ops != [] {
      ApplyKeeps(h, ops[0]);
      ShareGivenUpOnce(Apply(h, ops[0]), ops[1..], h');
    }
  }

  /** The listener may release the table's share directly exactly when nobody
      else holds the block; otherwise the count no longer covers the holders. */
  lemma ReleaseShareSafeIff(b: Life, holders: nat, dead: bool)
    requires LifeInv(Held(b, holders)) && b.place.Linked?
    ensures LifeInv(Held(ReleaseBlk(b, dead), holders)) <==> holders == 0
  {
    if holders == 0 {
      ReleaseKeeps(b, 0, 0, dead);
    }
  }

  /** One other holder and a failed first message: the block is freed under it. */
  lemma ReleaseShareUnderHolder()
    ensures var h := Apply(Held(Inbound, 0), Find);
            LifeInv(h) && h.holders == 1 && ReleaseBlk(h.b, true).freed == 1
  {
  }

  /** Every block's events follow the grammar, a block reported dead that was READY
      has raised LOST, a freed one REMOVED, and a connect is completed at most once. */
  lemma EventGrammar(h: Held, ops: seq<Op>, h': Held)
    requires Begins(h) && Reaches(h, ops, h')
    ensures h'.b.said.trace in {[], [Ready], [Ready, Lost], [Ready, Removed], [Ready, Lost, Removed]}
    ensures h'.b.freed > 0 && Ready in h'.b.said.trace ==> Removed in h'.b.said.trace
    ensures Removed in h'.b.said.trace ==> h'.b.freed > 0
    ensures Lost in h'.b.said.trace ==> h'.b.place.Unlinked?
    ensures h'.b.dead && Ready in h'.b.said.trace ==> Lost in h'.b.said.trace
    ensures |h'.b.connect.told| <= 1
  {
    RunKeeps(h, ops, h');
    assert h'.b.said.trace == Story(h'.b.said.ready, h'.b.said.lost, h'.b.said.removed);
  }

  // ---------------------------------------------------------------- descriptors

  /** A descriptor nobody will close: overwritten while open, or open on a block
      that is dead, or that was freed after its handshake. A block freed while
      still NEW has handed its descriptor to another block. */
  predicate LeavesOpen(b: Life) {
    b.fds.stray > 0 || ((b.dead || (b.freed > 0 && !b.isNew)) && (b.fds.ctrl || b.fds.rpc))
  }

  /** The operation assigns a descriptor that is open. */
  predicate Overwrites(h: Held, o: Op) {
    match o
    case SetCtrl => h.b.chan.ctrl && h.b.fds.ctrl
    case SetRpc(_) => h.b.fds.rpc
    case Reconnect(_, _) => h.b.fds.rpc
    case _ => false
  }

  /** A holder reconnects a block already reported dead. */
  predicate Late(h: Held, o: Op) {
    o.Reconnect? && o.connected && h.b.dead
  }

  predicate EverOverwrites(h: Held, ops: seq<Op>)
    decreases |ops|
  {
    ops != [] && Allowed(h, ops[0]) && (Overwrites(h, ops[0]) || EverOverwrites(Apply(h, ops[0]), ops[1..]))
  }

  predicate EverLate(h: Held, ops: seq<Op>)
    decreases |ops|
  {
    ops != [] && Allowed(h, ops[0]) && (Late(h, ops[0]) || EverLate(Apply(h, ops[0]), ops[1..]))
  }

  lemma StepLeaves(h: Held, o: Op)
    requires LifeInv(h) && Allowed(h, o)
    ensures LeavesOpen(Apply(h, o).b) <==> LeavesOpen(h.b) || Overwrites(h, o) || Late(h, o)
  {
  }

  lemma {:induction false} RunLeaves(h: Held, ops: seq<Op>, h': Held)
    requires LifeInv(h) && Reaches(h, ops, h')
    ensures LeavesOpen(h'.b) <==> LeavesOpen(h.b) || EverOverwrites(h, ops) || EverLate(h, ops)
    decreases |ops|
  {
    if ops != [] {
      ApplyKeeps(h, ops[0]);
      StepLeaves(h, ops[0]);
      RunLeaves(Apply(h, ops[0]), ops[1..], h');
    }
  }

  /** Over every run a block leaves a descriptor behind exactly when an operation
      assigned one over an open one, or a holder reconnected it after its death
      report: the release of a dead block closes nothing. */
  lemma DescriptorLeftIff(h: Held, ops: seq<Op>, h': Held)
    requires Begins(h) && Reaches(h, ops, h')
    ensures LeavesOpen(h'.b) <==> EverOverwrites(h, ops) || EverLate(h, ops)
    ensures h'.b.freed == 0 && h'.b.chan.ctrl ==> h'.b.fds.ctrl
    ensures h'.b.freed == 0 && h'.b.chan.rpc ==> h'.b.fds.rpc
  {
    RunKeeps(h, ops, h');
    RunLeaves(h, ops, h');
  }

  lemma StepStray(h: Held, o: Op)
    requires Allowed(h, o) && !Overwrites(h, o)
    ensures Apply(h, o).b.fds.stray == h.b.fds.stray
  {
    match o
    case Release(dead) =>
    case ReleaseShare(dead) =>
    case _ =>
  }

  lemma {:induction false} StrayFromOverwrites(h: Held, ops: seq<Op>, h': Held)
    requires Reaches(h, ops, h') && !EverOverwrites(h, ops)
    ensures h'.b.fds.stray == h.b.fds.stray
    decreases |ops|
  {
    if ops != [] {
      StepStray(h, ops[0]);
      StrayFromOverwrites(Apply(h, ops[0]), ops[1..], h');
    }
  }

  /** In particular, where nothing is overwritten: a dead block, or one freed after
      its handshake, has an open descriptor exactly when a holder reconnected it
      after the death report. */
  lemma DeadBlockOpenIff(h: Held, ops: seq<Op>, h': Held)
    requires Begins(h) && Reaches(h, ops, h') && !EverOverwrites(h, ops)
    requires h'.b.dead || (h'.b.freed > 0 && !h'.b.isNew)
    ensures h'.b.fds.ctrl || h'.b.fds.rpc <==> EverLate(h, ops)
  {
    DescriptorLeftIff(h, ops, h');
    StrayFromOverwrites(h, ops, h');
  }

  /** Two holders, one of which reports the death: the other is left with a dead
      block it may still send on. */
  function DeadWithHolder(): (h: Held)
    ensures LifeInv(h) && h.b.dead && h.holders == 1 && h.b.chan.named && !h.b.chan.rpc
  {
    Apply(Apply(Apply(Apply(Held(Inbound, 0), Name), Find), Find), Release(true))
  }

  /** Every last holder that sends on a dead block leaks the descriptor it opens;
      `DeadWithHolder` is such a state. */
  lemma SendAfterDeathLeaks(h: Held, greeted: bool, dead: bool)
    requires LifeInv(h) && h.b.dead && h.holders == 1 && h.b.chan.named && !h.b.chan.rpc
    ensures var h' := Apply(Apply(h, Reconnect(true, greeted)), Release(dead)); h'.b.freed == 1 && h'.b.fds.rpc
  {
    ApplyKeeps(h, Reconnect(true, greeted));
  }

  // ---------------------------------------------------------------- connect status

  /** The caller of a connect was told it succeeded, and the block never got READY. */
  predicate Misled(b: Life) {
    Success in b.connect.told && !b.said.ready
  }

  lemma StepMisled(h: Held, o: Op)
    requires LifeInv(h) && Allowed(h, o) && (Misled(h.b) ==> h.b.freed > 0)
    ensures Misled(Apply(h, o).b) <==> Misled(h.b) || o == Abandon(RpcSocket)
    ensures Misled(Apply(h, o).b) ==> Apply(h, o).b.freed > 0
  {
  }

  lemma {:induction false} RunMisled(h: Held, ops: seq<Op>, h': Held)
    requires LifeInv(h) && Reaches(h, ops, h') && (Misled(h.b) ==> h.b.freed > 0)
    ensures Misled(h'.b) <==> Misled(h.b) || Abandon(RpcSocket) in ops
    decreases |ops|
  {
    if ops != [] {
      var o := ops[0];
      ApplyKeeps(h, o);
      StepMisled(h, o);
      RunMisled(Apply(h, o), ops[1..], h');
      assert ops == [o] + ops[1..];
    }
  }

  /** A connect that is told it succeeded has a READY block, unless - and exactly
      unless - its RPC socket could not be opened. */
  lemma ConnectStatusIff(ops: seq<Op>, h': Held)
    requires Reaches(Held(Outbound, 0), ops, h')
    ensures (Success in h'.b.connect.told ==> h'.b.said.ready) <==> Abandon(RpcSocket) !in ops
  {
    RunMisled(Held(Outbound, 0), ops, h');
  }

  // ---------------------------------------------------------------- the block object

  /** The bits of the state word that this module is about. */
  datatype Flag = Control | Rpc | New | Dead | ReadyReported | LostReported | RemovedReported

  const INVALID_TCP_SOCKET := -1

  /** An agent block with the source's fields; its life is a view of them. */
  class Agent {
    var entry: Place
    var refCount: int
    var state: set<Flag>
    var remoteUuid: nat
    var iFileDesc: int
    var iRpcFd: int
    var strays: nat
    var connectReqPending: bool
    var statuses: seq<Status>
    var events: seq<PeerEvent>
    var freed: nat
    var fault: bool

    function Value(): Life
      reads this
    {
      Life(refCount, entry, Dead in state, New in state,
           Fds(iFileDesc >= 0, iRpcFd >= 0, strays),
           Channels(remoteUuid != 0, Control in state, Rpc in state),
           Said(ReadyReported in state, LostReported in state, RemovedReported in state, events),
           Connect(connectReqPending, statuses), freed, fault)
    }

    /** defw_alloc_agent_blk for an accepted socket. */
    constructor (fd: nat)
      ensures Value() == Inbound && iFileDesc == fd
    {
      entry, refCount, state, remoteUuid, iFileDesc, iRpcFd := Linked, 1, {New}, 0, fd, INVALID_TCP_SOCKET;
      strays, connectReqPending, statuses, events, freed, fault := 0, false, [], [], 0, false;
    }

    method Acquire()
      modifies `refCount, `fault
      ensures Value() == AcquireBlk(old(Value()))
    {
      fault := fault || freed > 0;
      refCount := refCount + 1;
    }

    method FreeBlk()
      modifies `freed, `fault
      ensures Value() == Free(old(Value()))
    {
      fault := fault || freed > 0;
      freed := freed + 1;
    }

    /** defw_agent_mark_once: sets a bit and says whether it was clear. */
    method MarkOnce(f: Flag) returns (marked: bool)
      modifies `state
      ensures marked == (f !in old(state)) && state == old(state) + {f}
    {
      marked := false;
      if f !in state {
        state := state + {f};
        marked := true;
      }
    }

    method ReadyToReport() returns (ready: bool)
      ensures ready == (remoteUuid != 0 && Control in state && Rpc in state)
    {
      if remoteUuid == 0 { return false; }
      if Control !in state { return false; }
      if Rpc !in state { return false; }
      return true;
    }

    method CompletePendingConnect()
      modifies `connectReqPending, `statuses
      ensures Value().connect == Complete(old(Value().connect))
    {
      if connectReqPending {
        connectReqPending := false;
        statuses := statuses + [Success];
      }
    }

    /** defw_agent_report_peer_ready with the pending connect it completes. */
    method PeerReady()
      modifies `state, `events, `connectReqPending, `statuses
      ensures Value() == ReportReady(old(Value()))
    {
      var ready := ReadyToReport();
      if !ready { return; }
      var marked := MarkOnce(ReadyReported);
      if !marked { return; }
      events := events + [Ready];
      CompletePendingConnect();
    }

    method PeerLost()
      modifies `state, `events
      ensures Value() == ReportLost(old(Value()))
    {
      if ReadyReported !in state { return; }
      var marked := MarkOnce(LostReported);
      if !marked { return; }
      events := events + [Lost];
    }

    method PeerRemoved()
      modifies `state, `events
      ensures Value() == ReportRemoved(old(Value()))
    {
      if ReadyReported !in state { return; }
      var marked := MarkOnce(RemovedReported);
      if !marked { return; }
      events := events + [Removed];
    }

    /** close_agent_connection_unlocked: both descriptors, if they are open. */
    method CloseConnection()
      modifies `iFileDesc, `iRpcFd
      ensures Value() == old(Value()).(fds := Close(old(Value()).fds))
    {
      if iFileDesc != INVALID_TCP_SOCKET { iFileDesc := INVALID_TCP_SOCKET; }
      if iRpcFd != INVALID_TCP_SOCKET { iRpcFd := INVALID_TCP_SOCKET; }
    }

    method FreeDeadIfUnreferenced()
      modifies this
      ensures Value() == FreeIfUnreferenced(old(Value()))
    {
      if refCount == 0 {
        PeerRemoved();
        FreeBlk();
      }
    }

    method MarkDead()
      modifies `state, `events
      ensures var b := old(Value());
              Value() == ReportLost(b.(dead := true, chan := b.chan.(ctrl := false, rpc := false)))
    {
      state := state + {Dead};
      state := state - {Rpc} - {Control};
      PeerLost();
    }

    method DropShare()
      modifies `entry, `refCount, `fault, `iFileDesc, `iRpcFd
      ensures var c := old(Value());
              Value() == c.(place := Unlinked, refCount := c.refCount - 1, fds := Close(c.fds),
                            fault := c.fault || c.refCount <= 0)
    {
      Unlink();
      fault := fault || refCount <= 0;
      refCount := refCount - 1;
      CloseConnection();
    }

    /** The first death report drops the table's share. */
    method BuryBlk()
      modifies this
      ensures Value() == Bury(old(Value()))
    {
      MarkDead();
      DropShare();
      FreeDeadIfUnreferenced();
    }

    /** The last reference of a block nobody reported dead. */
    method RetireBlk(dead: bool)
      modifies this
      ensures Value() == Retire(old(Value()), dead)
    {
      Unlink();
      if New !in state || dead {
        CloseAndRemove(dead);
      }
      FreeBlk();
    }

    method Unlink()
      modifies `entry
      ensures Value() == old(Value()).(place := Unlinked)
    {
      entry := Unlinked;
    }

    method CloseAndRemove(dead: bool)
      modifies `state, `events, `iFileDesc, `iRpcFd
      ensures var c := old(Value());
              Value() == ReportRemoved((if dead then ReportLost(c) else c).(fds := Close(c.fds)))
    {
      if dead { PeerLost(); }
      CloseConnection();
      PeerRemoved();
    }

    /** defw_release_agent_blk_unlocked */
    method ReleaseRef(dead: bool)
      modifies this
      ensures Value() == ReleaseBlk(old(Value()), dead)
    {
      fault := fault || refCount <= 0 || freed > 0;
      refCount := refCount - 1;
      if Dead in state {
        FreeDeadIfUnreferenced();
      } else if refCount == 0 {
        RetireBlk(dead);
      } else if dead {
        BuryBlk();
      }
    }

    /** The channel part of defw_send: `fd` is what the new socket came to, and
        `greeted` whether the session message went out on it. */
    method EnsureRpcChannel(fd: int, greeted: bool) returns (up: bool)
      modifies `state, `iRpcFd, `strays
      ensures up == (Rpc in state)
      ensures Value() == if Rpc in old(state) then old(Value()) else ReopenRpc(old(Value()), fd >= 0, greeted)
    {
      if Rpc in state { return true; }
      if iRpcFd >= 0 { strays := strays + 1; }
      iRpcFd := fd;
      if iRpcFd < 0 { return false; }
      if !greeted { return false; }
      state := state + {Rpc};
      return true;
    }
  }

  /** A release never links a block. */
  lemma LinkedBefore(b: Life, dead: bool)
    ensures ReleaseBlk(b, dead).place.Linked? ==> b.place.Linked?
  {
  }

  function Without(t: seq<Agent>, a: Agent): (r: seq<Agent>)
    ensures a !in r && (forall x :: x in r ==> x in t) && (forall x :: x in t && x != a ==> x in r)
    ensures a !in t ==> r == t
  {
    if t == [] then []
    else if t[0] == a then Without(t[1..], a)
    else [t[0]] + Without(t[1..], a)
  }

  class ConnectionTable {
    var entries: seq<Agent>

    ghost predicate Valid()
      reads this, entries
    {
      forall a :: a in entries ==> a.entry.Linked?
    }

    constructor ()
      ensures Valid() && entries == []
    {
      entries := [];
    }

    method Accept(fd: nat) returns (a: Agent)
      requires Valid()
      modifies this
      ensures Valid() && fresh(a) && a.Value() == Inbound && entries == old(entries) + [a]
    {
      a := new Agent(fd);
      entries := entries + [a];
    }

    /** defw_release_agent_blk_unlocked under the table lock: the block leaves
        the table exactly when the release makes it unlinked. */
    method ReleaseAgent(a: Agent, dead: bool)
      requires Valid() && (a.entry.Linked? <==> a in entries)
      modifies this, a
      ensures a.Value() == ReleaseBlk(old(a.Value()), dead)
      ensures Valid() && (a.entry.Linked? <==> a in entries)
      ensures entries == if a.entry.Linked? then old(entries) else Without(old(entries), a)
    {
      ghost var before := a.Value();
      a.ReleaseRef(dead);
      LinkedBefore(before, dead);
      if !a.entry.Linked? {
        entries := Without(entries, a);
      }
    }
  }
}

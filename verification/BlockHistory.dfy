/**
  What a block is follows from what was done to it: over every run its channels,
  place, events, descriptors and connect status are read off the operations
  themselves, without the state in between.
 */
module BlockHistory {
  import opened Lifecycle

  /** The death of the peer was reported by a holder. */
  predicate Died(ops: seq<Op>) { Release(true) in ops }

  /** The table, or the connect thread before it, no longer holds its share. */
  predicate Gone(ops: seq<Op>) {
    Died(ops) || ReleaseShare(true) in ops || ReleaseShare(false) in ops || Abandoned(ops)
  }

  predicate Abandoned(ops: seq<Op>) {
    Abandon(RpcSocket) in ops || GivenUp(ops)
  }

  /** A connect was given up where its return code says so. */
  predicate GivenUp(ops: seq<Op>) {
    Abandon(CtrlSocket) in ops || Abandon(CtrlSession) in ops || Abandon(RpcSession) in ops
  }

  /** References taken by holders and not given back. */
  function Out(ops: seq<Op>): int {
    if ops == [] then 0
    else
      var o := ops[|ops| - 1];
      Out(ops[..|ops| - 1]) + if o.Find? then 1 else if o.Release? || o.ReleaseWalk? then -1 else 0
  }

  predicate CtrlUp(ops: seq<Op>) { SetCtrl in ops && !Died(ops) }

  /** The RPC channel is as the last assignment left it; the first death report
      takes it down. */
  predicate RpcUp(ops: seq<Op>) {
    ops != [] &&
    var front := ops[..|ops| - 1];
    match ops[|ops| - 1]
    case SetRpc(_) => true
    case Reconnect(connected, greeted) => connected && greeted
    case Release(true) => Died(front) && RpcUp(front)
    case _ => RpcUp(front)
  }

  /** A report found the peer named and both channels up. */
  predicate Readied(ops: seq<Op>) {
    ops != [] &&
    var front := ops[..|ops| - 1];
    Readied(front) || (ops[|ops| - 1] == Report && Name in front && CtrlUp(front) && RpcUp(front))
  }

  /** After that, someone released the block because its peer was dead. */
  predicate Missed(ops: seq<Op>) {
    ops != [] &&
    var front := ops[..|ops| - 1];
    Missed(front) || (Readied(front) && (ops[|ops| - 1] == Release(true) || ops[|ops| - 1] == ReleaseShare(true)))
  }

  /** Operations that close both descriptors: the first death report, giving up a
      connect, and the last release of a block that is dead or past its handshake. */
  predicate Closes(front: seq<Op>, o: Op) {
    || (o == Release(true) && !Died(front))
    || o.Abandon?
    || (o.ReleaseShare? && (o.dead || SetCtrl in front))
  }

  predicate CtrlOpen(accepted: bool, ops: seq<Op>) {
    if ops == [] then accepted
    else
      var front, o := ops[..|ops| - 1], ops[|ops| - 1];
      if Closes(front, o) || o == SetRpc(true) then false
      else o.SetCtrl? || CtrlOpen(accepted, front)
  }

  predicate RpcOpen(ops: seq<Op>) {
    ops != [] &&
    var front, o := ops[..|ops| - 1], ops[|ops| - 1];
    if Closes(front, o) then false
    else if o.Reconnect? then o.connected
    else o.SetRpc? || RpcOpen(front)
  }

  /** How many descriptors were assigned over open ones. */
  function Strays(accepted: bool, ops: seq<Op>): nat {
    if ops == [] then 0
    else
      var front, o := ops[..|ops| - 1], ops[|ops| - 1];
      Strays(accepted, front) +
      if (o.SetCtrl? && CtrlUp(front) && CtrlOpen(accepted, front)) || ((o.SetRpc? || o.Reconnect?) && RpcOpen(front))
      then 1 else 0
  }

  lemma Snoc(past: seq<Op>, o: Op)
    ensures (past + [o])[..|past|] == past && (past + [o])[|past|] == o
    ensures forall x :: x in past + [o] <==> x in past || x == o
  {
  }

  // ---------------------------------------------------------------- the state follows

  predicate HoldersFollow(past: seq<Op>, h: Held) {
    h.holders == Out(past) && (Abandoned(past) ==> h.holders == 0)
  }

  predicate PlaceFollows(accepted: bool, past: seq<Op>, h: Held) {
    && (h.b.place.Unlinked? <==> Gone(past))
    && (h.b.place.Connecting? <==> !accepted && Link !in past && !Gone(past))
    && (h.b.dead <==> Died(past))
    && (h.b.isNew <==> SetCtrl !in past)
  }

  predicate ChannelsFollow(past: seq<Op>, b: Life) {
    && (b.chan.named <==> Name in past)
    && (b.chan.ctrl <==> CtrlUp(past))
    && (b.chan.rpc <==> RpcUp(past))
  }

  predicate EventsFollow(past: seq<Op>, b: Life) {
    && (b.said.ready <==> Readied(past))
    && (b.said.lost <==> Missed(past))
  }

  predicate DescriptorsFollow(accepted: bool, past: seq<Op>, b: Life) {
    && (b.fds.ctrl <==> CtrlOpen(accepted, past))
    && (b.fds.rpc <==> RpcOpen(past))
    && b.fds.stray == Strays(accepted, past)
  }

  predicate ConnectFollows(accepted: bool, past: seq<Op>, b: Life) {
    && b.connect.told == (if accepted then []
                          else if Readied(past) || Abandon(RpcSocket) in past then [Success]
                          else if GivenUp(past) then [Failure]
                          else [])
    && !((Readied(past) || Abandon(RpcSocket) in past) && GivenUp(past))
    && (b.connect.pending <==> !accepted && b.connect.told == [])
  }

  predicate Follows(accepted: bool, past: seq<Op>, h: Held) {
    && HoldersFollow(past, h) && PlaceFollows(accepted, past, h)
    && ChannelsFollow(past, h.b) && EventsFollow(past, h.b)
    && DescriptorsFollow(accepted, past, h.b) && ConnectFollows(accepted, past, h.b)
  }

  /** Nothing a history speaks about changes. */
  predicate Unmoved(b: Life, b': Life) {
    && b'.place == b.place && b'.dead == b.dead && b'.isNew == b.isNew && b'.chan == b.chan && b'.fds == b.fds
    && b'.connect == b.connect && b'.said.ready == b.said.ready && b'.said.lost == b.said.lost
  }

  /** What each operation changes, field by field. */
  predicate Moves(b: Life, o: Op, b': Life) {
    match o
    case Release(dead) =>
      if b.dead || !dead then Unmoved(b, b')
      else Unmoved(b.(place := Unlinked, dead := true, chan := Channels(b.chan.named, false, false),
                      fds := Fds(false, false, b.fds.stray), said := b.said.(lost := b.said.ready)), b')
    case ReleaseShare(dead) =>
      Unmoved(b.(place := Unlinked, fds := if dead || !b.isNew then Fds(false, false, b.fds.stray) else b.fds,
                 said := b.said.(lost := dead && b.said.ready)), b')
    case Find => Unmoved(b, b')
    case ReleaseWalk => Unmoved(b, b')
    case Link => Unmoved(b.(place := Linked), b')
    case Abandon(at) =>
      Unmoved(b.(place := Unlinked, fds := Fds(false, false, b.fds.stray),
                 connect := Connect(false, [if at == RpcSocket then Success else Failure])), b')
    case SetCtrl =>
      Unmoved(b.(isNew := false, chan := b.chan.(ctrl := true),
                 fds := Fds(true, b.fds.rpc, b.fds.stray + if b.chan.ctrl && b.fds.ctrl then 1 else 0)), b')
    case SetRpc(own) =>
      Unmoved(b.(chan := b.chan.(rpc := true),
                 fds := Fds(b.fds.ctrl && !own, true, b.fds.stray + if b.fds.rpc then 1 else 0)), b')
    case Name => Unmoved(b.(chan := b.chan.(named := true)), b')
    case Report =>
      if b.chan == Channels(true, true, true) && !b.said.ready then
        Unmoved(b.(said := b.said.(ready := true),
                   connect := Connect(false, if b.connect.pending then [Success] else b.connect.told)), b')
      else Unmoved(b, b')
    case Reconnect(connected, greeted) =>
      Unmoved(b.(chan := b.chan.(rpc := connected && greeted),
                 fds := Fds(b.fds.ctrl, connected, b.fds.stray + if b.fds.rpc then 1 else 0)), b')
  }

  lemma ReleaseMoves(h: Held, dead: bool)
    requires LifeInv(h) && h.holders > 0
    ensures Moves(h.b, Release(dead), ReleaseBlk(h.b, dead))
  {
  }

  lemma ShareMoves(h: Held, dead: bool)
    requires LifeInv(h) && h.holders == 0 && h.b.place.Linked?
    ensures Moves(h.b, ReleaseShare(dead), ReleaseBlk(h.b, dead))
  {
  }

  lemma ApplyMoves(h: Held, o: Op)
    requires LifeInv(h) && Allowed(h, o)
    ensures Moves(h.b, o, Apply(h, o).b)
  {
    match o
    case Release(dead) => ReleaseMoves(h, dead);
    case ReleaseShare(dead) => ShareMoves(h, dead);
    case _ =>
  }

  lemma StepHolders(past: seq<Op>, h: Held, o: Op)
    requires LifeInv(h) && Allowed(h, o) && HoldersFollow(past, h) && (Abandoned(past) ==> h.b.place.Unlinked?)
    ensures HoldersFollow(past + [o], Apply(h, o))
  {
    Snoc(past, o);
  }

  lemma PlaceNext(past: seq<Op>, o: Op)
    ensures Died(past + [o]) <==> Died(past) || o == Release(true)
    ensures Gone(past + [o]) <==> Gone(past) || o == Release(true) || o.ReleaseShare? || o.Abandon?
    ensures Link in past + [o] <==> Link in past || o.Link?
    ensures SetCtrl in past + [o] <==> SetCtrl in past || o.SetCtrl?
  {
    Snoc(past, o);
    if o.Abandon? { match o.at case CtrlSocket => case CtrlSession => case RpcSocket => case RpcSession => }
  }

  lemma StepPlace(accepted: bool, past: seq<Op>, h: Held, o: Op, h': Held)
    requires Allowed(h, o) && PlaceFollows(accepted, past, h) && Moves(h.b, o, h'.b)
    ensures PlaceFollows(accepted, past + [o], h')
  {
    PlaceNext(past, o);
  }

  lemma StepChannels(past: seq<Op>, b: Life, o: Op, b': Life)
    requires ChannelsFollow(past, b) && (b.dead <==> Died(past)) && Moves(b, o, b')
    requires o.SetCtrl? ==> !b.dead
    ensures ChannelsFollow(past + [o], b')
  {
    Snoc(past, o);
  }

  lemma StepEvents(past: seq<Op>, b: Life, o: Op, b': Life)
    requires ChannelsFollow(past, b) && EventsFollow(past, b) && (b.dead <==> Died(past)) && Moves(b, o, b')
    requires b.dead && b.said.ready ==> b.said.lost
    requires o.ReleaseShare? || (o.Release? && !b.dead) ==> !b.said.lost
    ensures EventsFollow(past + [o], b')
  {
    Snoc(past, o);
  }

  lemma DescriptorsNext(accepted: bool, past: seq<Op>, o: Op)
    ensures CtrlOpen(accepted, past + [o]) <==>
            !Closes(past, o) && o != SetRpc(true) && (o.SetCtrl? || CtrlOpen(accepted, past))
    ensures RpcOpen(past + [o]) <==>
            !Closes(past, o) && if o.Reconnect? then o.connected else o.SetRpc? || RpcOpen(past)
    ensures Strays(accepted, past + [o]) == Strays(accepted, past) +
            if (o.SetCtrl? && CtrlUp(past) && CtrlOpen(accepted, past)) ||
               ((o.SetRpc? || o.Reconnect?) && RpcOpen(past)) then 1 else 0
  {
    Snoc(past, o);
  }

  lemma StepDescriptors(accepted: bool, past: seq<Op>, b: Life, o: Op, b': Life)
    requires ChannelsFollow(past, b) && DescriptorsFollow(accepted, past, b) && Moves(b, o, b')
    requires (b.dead <==> Died(past)) && (b.isNew <==> SetCtrl !in past)
    ensures DescriptorsFollow(accepted, past + [o], b')
  {
    DescriptorsNext(accepted, past, o);
  }

  lemma ConnectNext(past: seq<Op>, o: Op)
    ensures Readied(past + [o]) <==> Readied(past) || (o.Report? && Name in past && CtrlUp(past) && RpcUp(past))
    ensures Abandon(RpcSocket) in past + [o] <==> Abandon(RpcSocket) in past || o == Abandon(RpcSocket)
    ensures GivenUp(past + [o]) <==> GivenUp(past) || (o.Abandon? && !o.at.RpcSocket?)
  {
    Snoc(past, o);
    if o.Abandon? { match o.at case CtrlSocket => case CtrlSession => case RpcSocket => case RpcSession => }
  }

  lemma StepConnect(accepted: bool, past: seq<Op>, b: Life, o: Op, b': Life)
    requires ChannelsFollow(past, b) && EventsFollow(past, b) && ConnectFollows(accepted, past, b) && Moves(b, o, b')
    requires o.Abandon? ==> b.connect.pending
    requires o.Report? ==> !GivenUp(past)
    ensures ConnectFollows(accepted, past + [o], b')
  {
    ConnectNext(past, o);
  }

  lemma StepFollows(accepted: bool, past: seq<Op>, h: Held, o: Op)
    requires LifeInv(h) && Follows(accepted, past, h) && Allowed(h, o)
    ensures Follows(accepted, past + [o], Apply(h, o))
  {
    var h' := Apply(h, o);
    ApplyMoves(h, o);
    StepHolders(past, h, o);
    StepPlace(accepted, past, h, o, h');
    StepChannels(past, h.b, o, h'.b);
    StepEvents(past, h.b, o, h'.b);
    StepDescriptors(accepted, past, h.b, o, h'.b);
    StepConnect(accepted, past, h.b, o, h'.b);
  }

  lemma {:induction false} RunFollows(accepted: bool, past: seq<Op>, h: Held, ops: seq<Op>, h': Held)
    requires LifeInv(h) && Follows(accepted, past, h) && Reaches(h, ops, h')
    ensures Follows(accepted, past + ops, h')
    decreases |ops|
  {
    if ops == [] {
      assert past + ops == past;
    } else {
      var o := ops[0];
      StepFollows(accepted, past, h, o);
      ApplyKeeps(h, o);
      assert past + [o] + ops[1..] == past + ops;
      RunFollows(accepted, past + [o], Apply(h, o), ops[1..], h');
    }
  }

  // ---------------------------------------------------------------- results

  /** Everything about a block, over every run, read off the operations. */
  lemma BlockFollowsOps(h: Held, ops: seq<Op>, h': Held)
    requires Begins(h) && Reaches(h, ops, h')
    ensures Follows(h == Held(Inbound, 0), ops, h')
  {
    RunFollows(h == Held(Inbound, 0), [], h, ops, h');
    assert [] + ops == ops;
  }

  /** The report at `i` found the peer named and both channels up. */
  predicate Qualifies(ops: seq<Op>, i: nat) {
    && i < |ops| && ops[i] == Report && Name in ops[..i]
    && SetCtrl in ops[..i] && Release(true) !in ops[..i] && RpcUp(ops[..i])
  }

  lemma {:induction false} ReadiedIff(ops: seq<Op>)
    ensures Readied(ops) <==> exists i: nat :: Qualifies(ops, i)
    decreases |ops|
  {
    if ops != [] {
      var n := |ops| - 1;
      var front := ops[..n];
      ReadiedIff(front);
      forall i: nat | i < n ensures Qualifies(ops, i) <==> Qualifies(front, i) { assert ops[..i] == front[..i]; }
      if Readied(front) {
        var i: nat :| Qualifies(front, i);
        assert Qualifies(ops, i);
      }
      assert Qualifies(ops, n) ==> Readied(ops);
    }
  }

  /** READY is raised if and only if some report found the peer named and both
      channels up; LOST if and only if a release reported it dead after that;
      REMOVED if and only if the block is then freed, which it is exactly once its
      share is gone and every reference is back. */
  lemma EventsIff(h: Held, ops: seq<Op>, h': Held)
    requires Begins(h) && Reaches(h, ops, h')
    ensures Ready in h'.b.said.trace <==> exists i: nat :: Qualifies(ops, i)
    ensures Lost in h'.b.said.trace <==> Missed(ops)
    ensures h'.b.freed > 0 <==> Gone(ops) && Out(ops) == 0
    ensures Removed in h'.b.said.trace <==> Readied(ops) && Gone(ops) && Out(ops) == 0
  {
    BlockFollowsOps(h, ops, h');
    ReadiedIff(ops);
    RunKeeps(h, ops, h');
    assert h'.b.said.trace == Story(h'.b.said.ready, h'.b.said.lost, h'.b.said.removed);
  }

  /** A connect is told of success if and only if its block became READY or its RPC
      socket could not be opened, of failure if and only if it was given up at
      another point, and otherwise nothing. */
  lemma ConnectToldIff(ops: seq<Op>, h': Held)
    requires Reaches(Held(Outbound, 0), ops, h')
    ensures h'.b.connect.told == [Success] <==> (exists i: nat :: Qualifies(ops, i)) || Abandon(RpcSocket) in ops
    ensures h'.b.connect.told == [Failure] <==>
            Abandon(CtrlSocket) in ops || Abandon(CtrlSession) in ops || Abandon(RpcSession) in ops
    ensures h'.b.connect.told in {[], [Success], [Failure]}
  {
    BlockFollowsOps(Held(Outbound, 0), ops, h');
    ReadiedIff(ops);
  }

  lemma ReachesBack(h: Held, o: Op, rest: seq<Op>, h': Held)
    requires Allowed(h, o) && Reaches(Apply(h, o), rest, h')
    ensures Reaches(h, [o] + rest, h')
  {
    assert ([o] + rest)[1..] == rest;
  }

  /** The block of a connect that got through. */
  const Up := Life(1, Linked, false, false, Fds(true, true, 0), Channels(true, true, true),
                   Said(true, false, false, [Ready]), Connect(false, [Success]), 0, false)

  lemma GetsThrough() returns (ops: seq<Op>)
    ensures forall rest, h :: Reaches(Held(Up, 0), rest, h) ==> Reaches(Held(Outbound, 0), ops + rest, h)
  {
    var h0 := Held(Outbound, 0);
    var h1 := Apply(h0, SetCtrl);
    var h2 := Apply(h1, SetRpc(false));
    var h3 := Apply(h2, Link);
    var h4 := Apply(h3, Name);
    var h5 := Apply(h4, Report);
    assert h5.b.said.trace == [Ready] && h5.b.connect.told == [Success];
    assert h5 == Held(Up, 0);
    ops := [SetCtrl, SetRpc(false), Link, Name, Report];
    forall rest, h | Reaches(Held(Up, 0), rest, h) ensures Reaches(h0, ops + rest, h) {
      ReachesBack(h4, Report, rest, h);
      ReachesBack(h3, Name, [Report] + rest, h);
      ReachesBack(h2, Link, [Name] + ([Report] + rest), h);
      ReachesBack(h1, SetRpc(false), [Link] + ([Name] + ([Report] + rest)), h);
      ReachesBack(h0, SetCtrl, [SetRpc(false)] + ([Link] + ([Name] + ([Report] + rest))), h);
      assert ops + rest == [SetCtrl] + ([SetRpc(false)] + ([Link] + ([Name] + ([Report] + rest))));
    }
  }

  /** A connect that succeeds, and whose peer is then lost: all three events are
      raised, the caller was told of success, and the block is freed. */
  lemma WholeLife() returns (ops: seq<Op>, h: Held)
    ensures Reaches(Held(Outbound, 0), ops, h)
    ensures h.b.said.trace == [Ready, Lost, Removed] && h.b.connect.told == [Success] && h.b.freed == 1
  {
    var found := Apply(Held(Up, 0), Find);
    h := Apply(found, Release(true));
    ReachesBack(found, Release(true), [], h);
    ReachesBack(Held(Up, 0), Find, [Release(true)] + [], h);
    ops := GetsThrough();
    ops := ops + ([Find] + ([Release(true)] + []));
  }
}

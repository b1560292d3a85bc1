/**
  Messages on a TCP channel: a 28-byte header and a body, written by any number
  of threads under the channel's mutex and read back in arbitrary pieces.
 */
module Framing {
  import opened Common
  import opened Wire

  const HeaderSize := 28
  const Version := 4
  const MaxType := 6
  const MaxBody := 0x8000_0000

  datatype Message = Message(kind: nat, uuid: seq<byte>, body: seq<byte>)

  /** Messages the source can frame: a known type and a length that survives the
      conversion to int. */
  predicate Sendable(m: Message) {
    m.kind < MaxType && |m.uuid| == 16 && 1 <= |m.body| < MaxBody
  }

  /** populateMsgHdr */
  function Header(m: Message): (h: seq<byte>)
    requires Sendable(m)
    ensures |h| == HeaderSize
  {
    Be32(m.kind) + Be32(|m.body|) + m.uuid + Be32(Version)
  }

  function FrameOf(m: Message): seq<byte>
    requires Sendable(m)
  {
    Header(m) + m.body
  }

  function Kind(h: seq<byte>): nat requires |h| == HeaderSize { FromBe32(h[..4]) }
  function Length(h: seq<byte>): nat requires |h| == HeaderSize { FromBe32(h[4..8]) }
  function Sender(h: seq<byte>): seq<byte> requires |h| == HeaderSize { h[8..24] }
  function VersionOf(h: seq<byte>): nat requires |h| == HeaderSize { FromBe32(h[24..]) }

  lemma HeaderRoundTrip(m: Message)
    requires Sendable(m)
    ensures var h := Header(m);
            Kind(h) == m.kind && Length(h) == |m.body| && Sender(h) == m.uuid && VersionOf(h) == Version
  {
    var h := Header(m);
    assert h[..4] == Be32(m.kind) && h[4..8] == Be32(|m.body|) && h[8..24] == m.uuid && h[24..] == Be32(Version);
    Be32RoundTrip(m.kind);
    Be32RoundTrip(|m.body|);
    Be32RoundTrip(Version);
  }

  /** The number in four bytes, most significant first. */
  function Word(h: seq<byte>, at: nat): int
    requires at + 4 <= |h|
  {
    h[at] as int * 16777216 + h[at + 1] as int * 65536 + h[at + 2] as int * 256 + h[at + 3] as int
  }

  /** The layout on the wire: type, body length, sender, version. */
  lemma HeaderLayout(m: Message)
    requires Sendable(m)
    ensures var h := Header(m);
            Word(h, 0) == m.kind && Word(h, 4) == |m.body| && h[8..24] == m.uuid && Word(h, 24) == 4
  {
    HeaderRoundTrip(m);
    NetworkOrder(m.kind);
    NetworkOrder(|m.body|);
    NetworkOrder(4);
  }

  /** The receiver's checks on a complete header, in the source's order. */
  predicate HeaderOk(h: seq<byte>, expected: Option<seq<byte>>)
    requires |h| == HeaderSize
  {
    VersionOf(h) == Version && (expected.Some? ==> expected.value == Sender(h)) && Kind(h) < MaxType
  }

  // ---------------------------------------------------------------- one thread at a time

  /** What one read or write call did: moved some bytes, was interrupted, found
      the timeout or the end of the stream, or failed. */
  datatype Syscall = Moved(n: nat) | Interrupted | TimedOut | Eof | Failed

  datatype Rc = Done | SysErr | SocketFail | Timeout | Waiting

  class Socket {
    var bytes: seq<byte>
  }

  function Min(a: nat, b: nat): nat { if a < b then a else b }

  /** sendTcpMessage: whatever the calls do, the socket holds a prefix of the
      buffer, and all of it when the loop ends well. The script ends in Waiting
      when the call would still be blocked. */
  method SendTcpMessage(sock: Socket, buf: seq<byte>, script: seq<Syscall>) returns (rc: Rc, n: nat)
    modifies sock
    ensures n <= |buf| && sock.bytes == old(sock.bytes) + buf[..n]
    ensures rc == Done <==> n == |buf|
    ensures rc == SysErr ==> exists c :: c in script && (c.Failed? || c.TimedOut? || c.Eof?)
  {
    n := 0;
    var i := 0;
    while n < |buf|
      invariant n <= |buf| && i <= |script|
      invariant sock.bytes == old(sock.bytes) + buf[..n]
      decreases |script| - i
    {
      if i == |script| { return Waiting, n; }
      var call := script[i];
      assert call in script;
      i := i + 1;
      match call {
        case Interrupted =>
        case Moved(k) =>
          var moved := Min(k, |buf| - n);
          assert buf[..n + moved] == buf[..n] + buf[n..n + moved];
          sock.bytes := sock.bytes + buf[n..n + moved];
          n := n + moved;
        case TimedOut => return SysErr, n;
        case Eof => return SysErr, n;
        case Failed => return SysErr, n;
      }
    }
    assert buf[..n] == buf;
    return Done, n;
  }

  /** defw_send_msg */
  method SendMsg(sock: Socket, m: Message, header: seq<Syscall>, body: seq<Syscall>) returns (rc: Rc, n: nat)
    requires Sendable(m)
    modifies sock
    ensures n <= |FrameOf(m)| && sock.bytes == old(sock.bytes) + FrameOf(m)[..n]
    ensures rc == Done <==> n == |FrameOf(m)|
  {
    var h := Header(m);
    rc, n := SendTcpMessage(sock, h, header);
    assert FrameOf(m)[..n] == h[..n];
    if rc != Done { return; }
    var k;
    rc, k := SendTcpMessage(sock, m.body, body);
    assert FrameOf(m)[..n + k] == h + m.body[..k];
    n := n + k;
  }

  /** readTcpMessage: a successful read takes exactly the requested bytes off the
      front of the stream; a failed one has taken a prefix. A call that would
      move nothing waits for more bytes. */
  method ReadTcpMessage(sock: Socket, size: nat, script: seq<Syscall>) returns (rc: Rc, buf: seq<byte>)
    modifies sock
    ensures |buf| <= size && buf + sock.bytes == old(sock.bytes)
    ensures rc == Done <==> |buf| == size
  {
    buf := [];
    var i := 0;
    while |buf| < size
      invariant |buf| <= size && i <= |script|
      invariant buf + sock.bytes == old(sock.bytes)
      decreases |script| - i
    {
      if i == |script| { return Waiting, buf; }
      var call := script[i];
      i := i + 1;
      match call {
        case Interrupted =>
        case Moved(k) =>
          var moved := Min(Min(k, size - |buf|), |sock.bytes|);
          buf, sock.bytes := buf + sock.bytes[..moved], sock.bytes[moved..];
        case TimedOut => return Timeout, buf;
        case Eof => return SocketFail, buf;
        case Failed => return SocketFail, buf;
      }
    }
    return Done, buf;
  }

  datatype Received = Got(m: Message) | BadVersion | BadAddr | UnknownMessage | ReadError(rc: Rc)

  predicate StartsWith(stream: seq<byte>, m: Message) {
    Sendable(m) && |FrameOf(m)| <= |stream| && stream[..|FrameOf(m)|] == FrameOf(m)
  }

  lemma HeaderFirst(stream: seq<byte>, h: seq<byte>, rest: seq<byte>, m: Message)
    requires StartsWith(stream, m) && h + rest == stream && |h| == HeaderSize
    ensures h == Header(m) && |m.body| <= |rest| && rest[..|m.body|] == m.body
  {
    assert stream[..HeaderSize] == FrameOf(m)[..HeaderSize] == h;
    assert FrameOf(m)[HeaderSize..] == m.body;
    assert rest[..|m.body|] == stream[..|FrameOf(m)|][HeaderSize..];
  }

  /** process_agent_message up to the dispatch. Of a stream that starts with a
      frame it makes that frame's message, however the reads are cut up, and
      leaves the stream at the next frame; and it makes a message of nothing
      that is not a frame. */
  method Receive(sock: Socket, expected: Option<seq<byte>>, header: seq<Syscall>, body: seq<Syscall>, ghost m: Message)
    returns (r: Received)
    modifies sock
    ensures r.Got? && Sendable(r.m) ==> FrameOf(r.m) + sock.bytes == old(sock.bytes)
    ensures r.Got? && expected.Some? ==> r.m.uuid == expected.value
    ensures StartsWith(old(sock.bytes), m) && (expected.Some? ==> expected.value == m.uuid) ==>
            r.ReadError? || r == Got(m)
    ensures !r.ReadError? ==> |old(sock.bytes)| >= 28
    ensures !r.ReadError? ==>
              var h := old(sock.bytes)[..28];
              var stranger := expected.Some? && expected.value != h[8..24];
              && (r.BadVersion? <==> Word(h, 24) != 4)
              && (r.BadAddr? <==> Word(h, 24) == 4 && stranger)
              && (r.UnknownMessage? <==> Word(h, 24) == 4 && !stranger && Word(h, 0) >= 6)
  {
    ghost var stream := sock.bytes;
    var rc, h := ReadTcpMessage(sock, HeaderSize, header);
    if rc != Done { return ReadError(rc); }
    assert h == stream[..28];
    if StartsWith(stream, m) {
      HeaderFirst(stream, h, sock.bytes, m);
      HeaderRoundTrip(m);
    }
    if VersionOf(h) != Version { return BadVersion; }
    if expected.Some? && expected.value != Sender(h) { return BadAddr; }
    if Kind(h) >= MaxType { return UnknownMessage; }
    ghost var rest := sock.bytes;
    var b;
    rc, b := ReadTcpMessage(sock, Length(h), body);
    if rc != Done { return ReadError(rc); }
    assert rest[..|b|] == b;
    r := Got(Message(Kind(h), Sender(h), b));
    if Sendable(r.m) {
      HeaderUnique(h, r.m);
    }
  }

  lemma Be32Unique(s: seq<byte>)
    requires |s| == 4
    ensures Be32(FromBe32(s)) == s
  {
    var n := FromBe32(s);
    var a := s[0] as int * 0x1_0000 + s[1] as int * 256 + s[2] as int;
    assert n == a * 256 + s[3] as int;
    assert n / 256 == a && n % 256 == s[3] as int;
    var b := s[0] as int * 256 + s[1] as int;
    assert a / 256 == b && a % 256 == s[2] as int;
    assert n / 0x1_0000 == b && n / 0x100_0000 == s[0] as int;
  }

  lemma HeaderUnique(h: seq<byte>, m: Message)
    requires |h| == HeaderSize && Sendable(m)
    requires Kind(h) == m.kind && Length(h) == |m.body| && Sender(h) == m.uuid && VersionOf(h) == Version
    ensures Header(m) == h
  {
    Be32Unique(h[..4]);
    Be32Unique(h[4..8]);
    Be32Unique(h[24..]);
    assert h == h[..4] + h[4..8] + h[8..24] + h[24..];
  }

  // ---------------------------------------------------------------- many threads

  function Stream(ms: seq<Message>): seq<byte>
    requires forall m :: m in ms ==> Sendable(m)
  {
    if ms == [] then [] else FrameOf(ms[0]) + Stream(ms[1..])
  }

  lemma {:induction false} StreamPush(ms: seq<Message>, m: Message)
    requires (forall x :: x in ms ==> Sendable(x)) && Sendable(m)
    ensures Stream(ms + [m]) == Stream(ms) + FrameOf(m)
    decreases |ms|
  {
    if ms == [] {
      assert [m][1..] == [] && ms + [m] == [m];
    } else {
      assert (ms + [m])[1..] == ms[1..] + [m];
      StreamPush(ms[1..], m);
    }
  }

  /** The receiver between two reads: header and body bytes of the frame being
      read, and the messages already dispatched. */
  datatype Rx = Rx(header: seq<byte>, body: seq<byte>, got: seq<Message>, failed: bool)

  /** How many bytes the current read call still asks for. */
  function Wanted(rx: Rx): int {
    if |rx.header| < HeaderSize then HeaderSize - |rx.header|
    else if |rx.header| == HeaderSize then Length(rx.header) - |rx.body|
    else 0
  }

  /** Bytes arrive: a completed header is checked, a completed body dispatched. */
  function Absorb(rx: Rx, chunk: seq<byte>, expected: Option<seq<byte>>): Rx
    requires |rx.header| <= HeaderSize
    requires |chunk| <= Wanted(rx)
  {
    if |rx.header| < HeaderSize then
      var h := rx.header + chunk;
      rx.(header := h, failed := rx.failed || (|h| == HeaderSize && !HeaderOk(h, expected)))
    else
      var b := rx.body + chunk;
      if |b| == Length(rx.header) then
        Rx([], [], rx.got + [Message(Kind(rx.header), Sender(rx.header), b)], rx.failed)
      else rx.(body := b)
  }

  /** A completed header is rejected if and only if its version is not 4, its sender
      not the expected one, or its type not below 6. */
  lemma HeaderRejectedIff(rx: Rx, chunk: seq<byte>, expected: Option<seq<byte>>)
    requires |rx.header| < 28 && |rx.header + chunk| == 28 && !rx.failed
    ensures var h := rx.header + chunk;
            Absorb(rx, chunk, expected).failed <==>
              Word(h, 24) != 4 || (expected.Some? && expected.value != h[8..24]) || Word(h, 0) >= 6
  {
  }

  /**
    One channel. Sender i still has todo[i] to send; the mutex holder's unwritten
    bytes are in out, those on the wire in pipe. The log lists the messages in
    the order their senders took the mutex.
   */
  datatype State = State(
    todo: seq<seq<Message>>,
    holder: Option<nat>,
    out: seq<byte>,
    pipe: seq<byte>,
    rx: Rx,
    log: seq<Message>,
    who: seq<nat>)

  datatype Step = Lock(i: nat) | Write(n: nat) | Unlock | ReadSome(n: nat)

  predicate Programs(ps: seq<seq<Message>>, uuid: seq<byte>) {
    forall i, j :: 0 <= i < |ps| && 0 <= j < |ps[i]| ==> Sendable(ps[i][j]) && ps[i][j].uuid == uuid
  }

  function Init(ps: seq<seq<Message>>): State {
    State(ps, None, [], [], Rx([], [], [], false), [], [])
  }

  /** Zero-byte writes are the interrupted calls. */
  predicate Enabled(s: State, t: Step) {
    match t
    case Lock(i) => s.holder.None? && i < |s.todo| && s.todo[i] != [] && Sendable(s.todo[i][0])
    case Write(n) => s.holder.Some? && n <= |s.out|
    case Unlock => s.holder.Some? && s.out == []
    case ReadSome(n) => !s.rx.failed && |s.rx.header| <= HeaderSize && n <= Wanted(s.rx) && n <= |s.pipe|
  }

  function Next(s: State, t: Step, expected: Option<seq<byte>>): State
    requires Enabled(s, t)
  {
    match t
    case Lock(i) =>
      var m := s.todo[i][0];
      s.(todo := s.todo[i := s.todo[i][1..]], holder := Some(i), out := FrameOf(m),
         log := s.log + [m], who := s.who + [i])
    case Write(n) => s.(out := s.out[n..], pipe := s.pipe + s.out[..n])
    case Unlock => s.(holder := None)
    case ReadSome(n) => s.(pipe := s.pipe[n..], rx := Absorb(s.rx, s.pipe[..n], expected))
  }

  predicate Run(s: State, ts: seq<Step>, expected: Option<seq<byte>>)
    decreases |ts|
  {
    ts == [] || (Enabled(s, ts[0]) && Run(Next(s, ts[0], expected), ts[1..], expected))
  }

  function End(s: State, ts: seq<Step>, expected: Option<seq<byte>>): State
    requires Run(s, ts, expected)
    decreases |ts|
  {
    if ts == [] then s else End(Next(s, ts[0], expected), ts[1..], expected)
  }

  /** The messages of one sender, in log order. */
  function Of(log: seq<Message>, who: seq<nat>, i: nat): seq<Message>
    requires |log| == |who|
  {
    if log == [] then []
    else Of(log[..|log| - 1], who[..|who| - 1], i) + if who[|who| - 1] == i then [log[|log| - 1]] else []
  }

  lemma OfPush(log: seq<Message>, who: seq<nat>, i: nat, m: Message, j: nat)
    requires |log| == |who|
    ensures Of(log + [m], who + [j], i) == Of(log, who, i) + if j == i then [m] else []
  {
    assert (log + [m])[..|log|] == log && (who + [j])[..|who|] == who;
  }

  // ---------------------------------------------------------------- the invariant

  predicate LogOk(s: State, uuid: seq<byte>) {
    && |s.who| == |s.log|
    && (forall m :: m in s.log ==> Sendable(m) && m.uuid == uuid)
    && s.rx.got <= s.log
    && (s.holder.None? ==> s.out == [])
  }

  /** Everything between the dispatched messages and the end of the log is in the
      receiver's buffers, on the wire, or still to be written - in that order. */
  predicate BytesOk(s: State, uuid: seq<byte>)
    requires LogOk(s, uuid)
  {
    s.rx.header + s.rx.body + s.pipe + s.out == Stream(s.log[|s.rx.got|..])
  }

  predicate RxOk(rx: Rx) {
    && !rx.failed && |rx.header| <= HeaderSize
    && (|rx.header| < HeaderSize ==> rx.body == [])
    && (|rx.header| == HeaderSize ==> |rx.body| < Length(rx.header))
  }

  predicate OrderOk(s: State, ps: seq<seq<Message>>)
    requires |s.who| == |s.log|
  {
    && |s.todo| == |ps| && (forall j :: 0 <= j < |s.who| ==> s.who[j] < |ps|)
    && (forall i :: 0 <= i < |ps| ==> Of(s.log, s.who, i) + s.todo[i] == ps[i])
  }

  predicate Inv(s: State, ps: seq<seq<Message>>, uuid: seq<byte>) {
    LogOk(s, uuid) && BytesOk(s, uuid) && RxOk(s.rx) && OrderOk(s, ps)
  }

  lemma LockInv(s: State, i: nat, ps: seq<seq<Message>>, uuid: seq<byte>, expected: Option<seq<byte>>)
    requires Inv(s, ps, uuid) && Programs(ps, uuid) && Enabled(s, Lock(i))
    ensures Inv(Next(s, Lock(i), expected), ps, uuid)
  {
    var m := s.todo[i][0];
    var s' := Next(s, Lock(i), expected);
    assert m in ps[i] && Sendable(m) && m.uuid == uuid by {
      var k := |Of(s.log, s.who, i)|;
      assert ps[i][k] == (Of(s.log, s.who, i) + s.todo[i])[k] == m;
    }
    assert s'.log[|s.rx.got|..] == s.log[|s.rx.got|..] + [m];
    StreamPush(s.log[|s.rx.got|..], m);
    assert s.rx.header + s.rx.body + s.pipe + [] == s.rx.header + s.rx.body + s.pipe;
    LockOrder(s, i, ps, expected);
  }

  lemma LockOrder(s: State, i: nat, ps: seq<seq<Message>>, expected: Option<seq<byte>>)
    requires |s.who| == |s.log| && OrderOk(s, ps) && Enabled(s, Lock(i))
    ensures OrderOk(Next(s, Lock(i), expected), ps)
  {
    var m := s.todo[i][0];
    var s' := Next(s, Lock(i), expected);
    forall j | 0 <= j < |ps| ensures Of(s'.log, s'.who, j) + s'.todo[j] == ps[j] {
      OfPush(s.log, s.who, j, m, i);
      assert s.todo[i] == [m] + s.todo[i][1..];
    }
  }

  lemma WriteInv(s: State, n: nat, ps: seq<seq<Message>>, uuid: seq<byte>, expected: Option<seq<byte>>)
    requires Inv(s, ps, uuid) && Enabled(s, Write(n))
    ensures Inv(Next(s, Write(n), expected), ps, uuid)
  {
    assert s.out == s.out[..n] + s.out[n..];
    assert s.pipe + s.out == (s.pipe + s.out[..n]) + s.out[n..];
  }

  /** The bytes the receiver has of the current frame are that frame's first. */
  lemma CurrentFrame(have: seq<byte>, tail: seq<byte>, ms: seq<Message>)
    requires (forall m :: m in ms ==> Sendable(m)) && have + tail == Stream(ms) && have != []
    ensures ms != []
    ensures |have| <= |FrameOf(ms[0])| ==> have == FrameOf(ms[0])[..|have|]
    ensures |have| == |FrameOf(ms[0])| ==> tail == Stream(ms[1..])
  {
    var f := FrameOf(ms[0]);
    assert Stream(ms) == f + Stream(ms[1..]);
    if |have| <= |f| { assert have == (have + tail)[..|have|] == f[..|have|]; }
    if |have| == |f| { assert tail == (have + tail)[|f|..] == Stream(ms[1..]); }
  }

  lemma Regroup(a: seq<byte>, b: seq<byte>, c: seq<byte>, n: nat, d: seq<byte>)
    requires n <= |c|
    ensures a + b + c + d == (a + b + c[..n]) + (c[n..] + d)
    ensures (a + b + c[..n]) + (c[n..] + d) == (a + b + c[..n]) + c[n..] + d
  {
    assert c == c[..n] + c[n..];
  }

  lemma HeaderReadInv(s: State, n: nat, ps: seq<seq<Message>>, uuid: seq<byte>, expected: Option<seq<byte>>)
    requires Inv(s, ps, uuid) && Enabled(s, ReadSome(n)) && |s.rx.header| < HeaderSize
    requires expected.Some? ==> expected.value == uuid
    ensures Inv(Next(s, ReadSome(n), expected), ps, uuid)
  {
    var s' := Next(s, ReadSome(n), expected);
    var pending := s.log[|s.rx.got|..];
    var have, tail := s.rx.header + s.pipe[..n], s.pipe[n..] + s.out;
    Regroup(s.rx.header, [], s.pipe, n, s.out);
    assert s.rx.header + [] + s.pipe[..n] == have && s.rx.header + [] == s.rx.header;
    assert have + [] + s'.pipe + s'.out == have + tail;
    if |have| == HeaderSize {
      CurrentFrame(have, tail, pending);
      assert have == FrameOf(pending[0])[..HeaderSize] == Header(pending[0]);
      HeaderRoundTrip(pending[0]);
    }
  }

  /** The last byte of a body completes the message its sender wrote. */
  lemma BodyReadInv(s: State, n: nat, ps: seq<seq<Message>>, uuid: seq<byte>, expected: Option<seq<byte>>)
    requires Inv(s, ps, uuid) && Enabled(s, ReadSome(n)) && |s.rx.header| == HeaderSize
    ensures Inv(Next(s, ReadSome(n), expected), ps, uuid)
  {
    var s' := Next(s, ReadSome(n), expected);
    var pending := s.log[|s.rx.got|..];
    BodyBytes(s.rx.header, s.rx.body, s.pipe, n, s.out, pending);
    assert pending[0] == s.log[|s.rx.got|];
    assert pending[1..] == s.log[|s.rx.got| + 1..];
    assert [] + [] + s'.pipe + s'.out == s'.pipe + s'.out;
  }

  lemma BodyBytes(header: seq<byte>, body: seq<byte>, pipe: seq<byte>, n: nat, out: seq<byte>, pending: seq<Message>)
    requires |header| == HeaderSize && n <= |pipe| && |body| + n <= Length(header)
    requires (forall m :: m in pending ==> Sendable(m)) && header + body + pipe + out == Stream(pending)
    ensures header + (body + pipe[..n]) + pipe[n..] + out == Stream(pending)
    ensures pending != [] && Kind(header) == pending[0].kind && Sender(header) == pending[0].uuid
    ensures |body| + n == Length(header) ==>
              body + pipe[..n] == pending[0].body && pipe[n..] + out == Stream(pending[1..])
  {
    var have, tail := header + (body + pipe[..n]), pipe[n..] + out;
    Regroup(header, body, pipe, n, out);
    assert have + tail == have + pipe[n..] + out;
    assert have == header + body + pipe[..n];
    CurrentFrame(header, body + pipe + out, pending) by {
      assert header + body + pipe + out == header + (body + pipe + out);
    }
    var m := pending[0];
    assert header == FrameOf(m)[..HeaderSize] == Header(m);
    HeaderRoundTrip(m);
    CurrentFrame(have, tail, pending);
    if |body| + n == Length(header) {
      BodyDone(m, have, body + pipe[..n]);
    }
  }

  lemma BodyDone(m: Message, have: seq<byte>, body: seq<byte>)
    requires Sendable(m) && have == Header(m) + body && |body| == |m.body| && have == FrameOf(m)[..|have|]
    ensures body == m.body
  {
    assert FrameOf(m)[..|have|] == FrameOf(m);
    assert body == have[HeaderSize..] && m.body == FrameOf(m)[HeaderSize..];
  }

  lemma StepInv(s: State, t: Step, ps: seq<seq<Message>>, uuid: seq<byte>, expected: Option<seq<byte>>)
    requires Inv(s, ps, uuid) && Programs(ps, uuid) && Enabled(s, t)
    requires expected.Some? ==> expected.value == uuid
    ensures Inv(Next(s, t, expected), ps, uuid)
  {
    match t
    case Lock(i) => LockInv(s, i, ps, uuid, expected);
    case Write(n) => WriteInv(s, n, ps, uuid, expected);
    case Unlock =>
    case ReadSome(n) =>
      if |s.rx.header| < HeaderSize {
        HeaderReadInv(s, n, ps, uuid, expected);
      } else {
        BodyReadInv(s, n, ps, uuid, expected);
      }
  }

  lemma {:induction false} RunInv(s: State, ts: seq<Step>, ps: seq<seq<Message>>, uuid: seq<byte>,
                                  expected: Option<seq<byte>>)
    requires Inv(s, ps, uuid) && Programs(ps, uuid) && Run(s, ts, expected)
    requires expected.Some? ==> expected.value == uuid
    ensures Inv(End(s, ts, expected), ps, uuid)
    decreases |ts|
  {
    if ts != [] {
      StepInv(s, ts[0], ps, uuid, expected);
      RunInv(Next(s, ts[0], expected), ts[1..], ps, uuid, expected);
    }
  }

  lemma InitInv(ps: seq<seq<Message>>, uuid: seq<byte>)
    ensures Inv(Init(ps), ps, uuid)
  {
    var s := Init(ps);
    assert s.log[0..] == [];
    assert forall i :: 0 <= i < |ps| ==> Of([], [], i) + ps[i] == ps[i];
  }

  // ---------------------------------------------------------------- results

  lemma {:induction false} OfPrefix(log: seq<Message>, who: seq<nat>, k: nat, i: nat)
    requires |log| == |who| && k <= |log|
    ensures Of(log[..k], who[..k], i) <= Of(log, who, i)
    decreases |log|
  {
    if k == |log| {
      assert log[..k] == log && who[..k] == who;
    } else {
      var n := |log| - 1;
      assert log[..n][..k] == log[..k] && who[..n][..k] == who[..k];
      OfPrefix(log[..n], who[..n], k, i);
    }
  }

  /** At every moment of every run, the dispatched messages are the first ones in
      the order the senders took the mutex, each is from one of the senders, and
      what is dispatched of each sender is what it sent, in order: an
      order-preserving merge, with nothing lost, torn or rejected. */
  lemma DispatchedMerge(ps: seq<seq<Message>>, uuid: seq<byte>, ts: seq<Step>, expected: Option<seq<byte>>, i: nat)
    requires Programs(ps, uuid) && Run(Init(ps), ts, expected) && i < |ps|
    requires expected.Some? ==> expected.value == uuid
    ensures var s := End(Init(ps), ts, expected);
            && !s.rx.failed && s.rx.got <= s.log && |s.who| == |s.log|
            && (forall j :: 0 <= j < |s.who| ==> s.who[j] < |ps|)
            && Of(s.rx.got, s.who[..|s.rx.got|], i) <= ps[i]
  {
    InitInv(ps, uuid);
    RunInv(Init(ps), ts, ps, uuid, expected);
    var s := End(Init(ps), ts, expected);
    var k := |s.rx.got|;
    assert s.log[..k] == s.rx.got;
    OfPrefix(s.log, s.who, k, i);
    assert Of(s.log, s.who, i) <= ps[i];
  }

  /** When every sender is done and the wire is empty, every message has been
      dispatched: the merge is complete. */
  lemma MergeComplete(ps: seq<seq<Message>>, uuid: seq<byte>, ts: seq<Step>, expected: Option<seq<byte>>)
    requires Programs(ps, uuid) && Run(Init(ps), ts, expected)
    requires expected.Some? ==> expected.value == uuid
    requires var s := End(Init(ps), ts, expected);
             s.holder.None? && s.pipe == [] && forall i :: 0 <= i < |s.todo| ==> s.todo[i] == []
    ensures var s := End(Init(ps), ts, expected);
            && |s.who| == |s.rx.got| && (forall j :: 0 <= j < |s.who| ==> s.who[j] < |ps|)
            && (forall i :: 0 <= i < |ps| ==> Of(s.rx.got, s.who, i) == ps[i])
  {
    InitInv(ps, uuid);
    RunInv(Init(ps), ts, ps, uuid, expected);
    var s := End(Init(ps), ts, expected);
    var pending := s.log[|s.rx.got|..];
    assert s.rx.header + s.rx.body + [] + [] == s.rx.header + s.rx.body;
    NoWholeFrame(s.rx, pending);
    assert s.rx.got == s.log;
    assert forall i :: 0 <= i < |ps| ==> Of(s.log, s.who, i) + [] == Of(s.log, s.who, i);
  }

  /** The channel never gets stuck: until every message is dispatched some step
      moves it on - a sender takes the mutex, writes or gives it back, or the
      receiver reads a byte. */
  lemma NeverStuck(ps: seq<seq<Message>>, uuid: seq<byte>, ts: seq<Step>, expected: Option<seq<byte>>)
    returns (t: Step)
    requires Programs(ps, uuid) && Run(Init(ps), ts, expected)
    requires expected.Some? ==> expected.value == uuid
    requires var s := End(Init(ps), ts, expected);
             !(s.holder.None? && s.pipe == [] && forall i :: 0 <= i < |s.todo| ==> s.todo[i] == [])
    ensures Enabled(End(Init(ps), ts, expected), t) && t != Write(0) && t != ReadSome(0)
  {
    InitInv(ps, uuid);
    RunInv(Init(ps), ts, ps, uuid, expected);
    var s := End(Init(ps), ts, expected);
    if s.pipe != [] {
      t := ReadSome(1);
    } else if s.holder.Some? {
      t := if s.out == [] then Unlock else Write(1);
    } else {
      var i :| 0 <= i < |s.todo| && s.todo[i] != [];
      var k := |Of(s.log, s.who, i)|;
      assert ps[i][k] == (Of(s.log, s.who, i) + s.todo[i])[k] == s.todo[i][0];
      t := Lock(i);
    }
  }

  lemma NoWholeFrame(rx: Rx, pending: seq<Message>)
    requires RxOk(rx) && (forall m :: m in pending ==> Sendable(m)) && rx.header + rx.body == Stream(pending)
    ensures pending == []
  {
    if pending != [] {
      var m := pending[0];
      assert |Stream(pending)| >= |FrameOf(m)|;
      assert Stream(pending)[..HeaderSize] == Header(m);
      if |rx.header| == HeaderSize {
        assert rx.header == (rx.header + rx.body)[..HeaderSize];
        HeaderRoundTrip(m);
      }
    }
  }
}

/**
 The same connection as the sockets see it: in each direction one stream of
 bytes, in which nothing marks where the control messages end.  Its runs are
 exactly those of the connection of messages and raw bytes.
 */
module Wire {
  import opened Codec
  import opened Seqs
  import opened Framing
  import opened Messages
  import opened SendPath
  import opened Session

  datatype ByteConn = ByteConn(now: Time, client: Client, server: Server, up: Bytes, down: Bytes)

  const ALL_TYPES := [TServerHello, TPong, TVisitTcpShare, TClientHello, TWorkerHello, TPing, TVisitConfirmed]

  /** The message that recv_msg() finds at the start of b. */
  function Incoming(b: Bytes): Option<Msg> {
    match Receive(b).0
    case Payload(p) => Decode(p, ALL_TYPES)
    case _ => None
  }

  predicate CanTakeBytes(b: Bytes, x: Item) {
    match x
    case Nothing => true
    case Message(m) => Incoming(b) == Some(m)
    case Raw(bs) => bs <= b
  }

  function TakeBytes(b: Bytes, x: Item): Bytes
    requires CanTakeBytes(b, x)
  {
    match x
    case Nothing => b
    case Message(_) => Receive(b).1
    case Raw(bs) => b[|bs|..]
  }

  function PutBytes(b: Bytes, x: Item): Bytes {
    match x
    case Nothing => b
    case Message(m) => b + Frame(Encode(m))
    case Raw(bs) => b + bs
  }

  predicate ByteEnabled(b: ByteConn, e: Event) {
    && Ready(b.client, b.server, b.now, e)
    && CanTakeBytes(b.up, Taken(e, Up)) && CanTakeBytes(b.down, Taken(e, Down))
  }

  function ByteApply(b: ByteConn, e: Event): ByteConn
    requires ByteEnabled(b, e)
  {
    ByteConn(
      if e.Tick? then b.now + e.d else b.now,
      ClientAfter(b.client, b.now, e),
      ServerAfter(b.server, b.now, e),
      PutBytes(TakeBytes(b.up, Taken(e, Up)), Given(b.server, e, Up)),
      PutBytes(TakeBytes(b.down, Taken(e, Down)), Given(b.server, e, Down)))
  }

  function ByteOpened(now: Time): ByteConn { ByteConn(now, NEW_CLIENT, NEW_SERVER, [], []) }

  /** The hypotheses on a step: visits begin in order, and the messages with fields fit a frame. */
  ghost predicate Wellbehaved(b: ByteConn, e: Event) {
    && (e.VisitStart? ==> b.server.recv.Parked? && Sendable(e.v))
    && (e.SendHello? ==> Sendable(e.hello))
  }

  ghost predicate IsByteRun(b: ByteConn, es: seq<Event>)
    decreases |es|
  {
    es == [] || (ByteEnabled(b, es[0]) && Wellbehaved(b, es[0]) && IsByteRun(ByteApply(b, es[0]), es[1..]))
  }

  ghost function ByteAfter(b: ByteConn, es: seq<Event>): ByteConn
    requires IsByteRun(b, es)
    decreases |es|
  {
    if es == [] then b else ByteAfter(ByteApply(b, es[0]), es[1..])
  }

  // ---- The bytes of a channel -------------------------------------------

  function FrameBytes(ms: seq<Msg>): Bytes {
    if ms == [] then [] else Frame(Encode(ms[0])) + FrameBytes(ms[1..])
  }

  function ChanBytes(ch: Chan): Bytes { FrameBytes(ch.frames) + ch.raw }

  function Concrete(k: Conn): ByteConn {
    ByteConn(k.now, k.client, k.server, ChanBytes(k.up), ChanBytes(k.down))
  }

  lemma {:induction false} FrameBytesAppend(ms: seq<Msg>, m: Msg)
    ensures FrameBytes(ms + [m]) == FrameBytes(ms) + Frame(Encode(m))
  {
    hide Frame, Encode;
    if ms == [] {
      assert ms + [m] == [m] && FrameBytes([m]) == Frame(Encode(m)) + FrameBytes([]);
    } else {
      FrameBytesAppend(ms[1..], m);
      assert (ms + [m])[1..] == ms[1..] + [m];
    }
  }

  lemma InAllTypes(t: MsgType)
    ensures t in ALL_TYPES
  {
    match t
    case TServerHello => assert ALL_TYPES[0] == t;
    case TPong => assert ALL_TYPES[1] == t;
    case TVisitTcpShare => assert ALL_TYPES[2] == t;
    case TClientHello => assert ALL_TYPES[3] == t;
    case TWorkerHello => assert ALL_TYPES[4] == t;
    case TPing => assert ALL_TYPES[5] == t;
    case TVisitConfirmed => assert ALL_TYPES[6] == t;
  }

  /** A sendable message in front of anything is what is received, and the rest is left. */
  lemma IncomingFrame(m: Msg, tail: Bytes)
    requires Sendable(m)
    ensures Receive(Frame(Encode(m)) + tail) == (Payload(Encode(m)), tail)
    ensures Incoming(Frame(Encode(m)) + tail) == Some(m)
  {
    hide Frame, Receive, Decode, WireText, TypeOf;
    InAllTypes(TypeOf(m));
    ReceiveFrame(Encode(m), tail);
    DecodeEncode(m, ALL_TYPES);
  }

  lemma NothingIncoming()
    ensures Incoming([]) == None
  {
  }

  /** For a channel whose raw bytes come behind its frames, taking from the bytes is taking from the channel. */
  lemma TakeAgrees(ch: Chan, x: Item)
    requires forall m <- ch.frames :: Sendable(m)
    requires |ch.stamps| == |ch.frames|
    requires x.Message? && ch.frames == [] ==> ch.raw == []
    requires x.Raw? ==> ch.frames == []
    ensures CanTakeBytes(ChanBytes(ch), x) <==> CanTake(ch, x)
    ensures CanTake(ch, x) ==> TakeBytes(ChanBytes(ch), x) == ChanBytes(Take(ch, x))
  {
    hide Sendable, Frame, Encode, Receive, Incoming;
    match x
    case Nothing =>
    case Raw(bs) =>
      assert FrameBytes(ch.frames) == [] && ChanBytes(ch) == ch.raw;
      if bs <= ch.raw {
        assert ChanBytes(Take(ch, x)) == ch.raw[|bs|..];
      }
    case Message(m) =>
      if ch.frames == [] {
        assert ChanBytes(ch) == [];
        NothingIncoming();
      } else {
        var f := ch.frames[0];
        var tail := FrameBytes(ch.frames[1..]) + ch.raw;
        assert f in ch.frames;
        assert ChanBytes(ch) == Frame(Encode(f)) + tail;
        IncomingFrame(f, tail);
      }
  }

  lemma PutAgrees(ch: Chan, x: Item, now: Time)
    requires x.Message? ==> ch.raw == []
    ensures PutBytes(ChanBytes(ch), x) == ChanBytes(PutIn(ch, x, now))
  {
    hide Frame, Encode;
    match x
    case Nothing =>
    case Message(m) =>
      FrameBytesAppend(ch.frames, m);
      assert ChanBytes(ch) == FrameBytes(ch.frames);
    case Raw(bs) =>
  }

  // ---- Both systems have the same runs ------------------------------------

  /** Every message on either line fits a frame. */
  ghost predicate AllSendable(k: Conn) {
    && (forall m <- k.up.frames :: Sendable(m))
    && (forall m <- DownLine(k) :: Sendable(m))
  }

  ghost predicate Fits(e: Event) {
    && (e.VisitStart? ==> Sendable(e.v))
    && (e.SendHello? ==> Sendable(e.hello))
  }

  lemma UpSendable(k: Conn, e: Event)
    requires Inv(k) && Enabled(k, e) && AllSendable(k) && Fits(e)
    ensures forall m <- Apply(k, e).up.frames :: Sendable(m)
  {
    hide Sendable, Inv, DownLine;
    BareSendable(Ping);
    BareSendable(VisitConfirmed);
  }

  /** A step leaves the line to the client alone, takes its first message, or adds a pong or the visit. */
  lemma LineMoves(k: Conn, e: Event)
    requires Inv(k) && Enabled(k, e) && Orderly(k, e)
    ensures var d, d' := DownLine(k), DownLine(Apply(k, e));
            || d' == d || (d != [] && d' == d[1..])
            || d' == d + [Pong] || (e.VisitStart? && d' == d + [e.v])
  {
    hide PathInv, Outbox, UpShape, DownShape, OneToken, Positions, Handed;
    var k' := Apply(k, e);
    if e.ServerSend? {
      SentOutbox(k);
      assert DownLine(k') == DownLine(k);
    } else if e.ServerRecv? {
      ServerSees(k, e.m);
      HandedInv(k.server.path, Receiver, Pong);
      assert DownLine(k') == DownLine(k) + [Pong];
    } else if e.VisitStart? {
      HandedInv(k.server.path, Visitor, e.v);
      assert DownLine(k') == DownLine(k) + [e.v];
    } else {
      OutboxKept(k, e);
      assert e.ClientRecv? ==> DownLine(k') == DownLine(k)[1..];
      assert !e.ClientRecv? ==> k'.down.frames == k.down.frames;
    }
  }

  lemma DownSendable(k: Conn, e: Event)
    requires Inv(k) && Enabled(k, e) && Orderly(k, e) && AllSendable(k) && Fits(e)
    ensures forall m <- DownLine(Apply(k, e)) :: Sendable(m)
  {
    hide Sendable, Inv, DownLine, Enabled, Apply, Orderly;
    BareSendable(Pong);
    LineMoves(k, e);
  }

  /** Nobody looks for a message where raw bytes start, or for raw bytes where messages are left. */
  lemma LooksInPlace(k: Conn, e: Event, dir: Dir)
    requires Inv(k) && Ready(k.client, k.server, k.now, e)
    ensures var ch := if dir == Up then k.up else k.down;
            var x := Taken(e, dir);
            && |ch.stamps| == |ch.frames|
            && (x.Message? && ch.frames == [] ==> ch.raw == [])
            && (x.Raw? ==> ch.frames == [])
  {
    hide PathInv, Outbox;
    if dir == Down {
      assert k.client.visited ==> DownLine(k) == [];
    } else {
      assert k.up.raw != [] ==> k.client.pc.Piping?;
      assert ConfirmPending(k) ==> |UpLine(k)| > 0;
    }
  }

  lemma SendsBeforeRaw(k: Conn)
    requires Inv(k) && Enabled(k, ServerSend)
    ensures k.down.raw == []
  {
    SentOutbox(k);
    hide PathInv, Outbox, CanSend, NextMessage, Sent, UpShape, OneToken;
    assert DownLine(k) != [];
  }

  lemma ClientWritesBeforeRaw(k: Conn, e: Event)
    requires Inv(k) && Enabled(k, e) && Given(k.server, e, Up).Message?
    ensures k.up.raw == []
  {
    hide PathInv, Outbox, CanSend, NextMessage, DownShape, OneToken;
  }

  /** Messages are only written while no raw byte is in the channel. */
  lemma WritesInPlace(k: Conn, e: Event, dir: Dir)
    requires Inv(k) && Enabled(k, e)
    ensures var ch := if dir == Up then k.up else k.down;
            Given(k.server, e, dir).Message? ==> Take(ch, Taken(e, dir)).raw == []
  {
    hide Inv, NextMessage, CanSend;
    if dir == Up && Given(k.server, e, Up).Message? {
      ClientWritesBeforeRaw(k, e);
    }
    if dir == Down && e.ServerSend? {
      SendsBeforeRaw(k);
    }
  }

  function ChanOf(k: Conn, dir: Dir): Chan { if dir == Up then k.up else k.down }

  /** What a step does to one channel it does to the bytes of the channel. */
  lemma ChanAgrees(k: Conn, e: Event, dir: Dir)
    requires Inv(k) && AllSendable(k) && Orderly(k, e) && Ready(k.client, k.server, k.now, e)
    ensures e.ServerSend? ==> CanSend(k.server.path)
    ensures var ch, x := ChanOf(k, dir), Taken(e, dir);
            && (CanTakeBytes(ChanBytes(ch), x) <==> CanTake(ch, x))
            && (Enabled(k, e) ==>
                  PutBytes(TakeBytes(ChanBytes(ch), x), Given(k.server, e, dir)) ==
                  ChanBytes(PutIn(Take(ch, x), Given(k.server, e, dir), k.now)))
  {
    LooksInPlace(k, e, dir);
    var ch, x := ChanOf(k, dir), Taken(e, dir);
    assert e.ServerSend? ==> CanSend(k.server.path);
    assert forall m <- ch.frames :: Sendable(m) by {
      assert forall m <- k.down.frames :: m in DownLine(k);
    }
    TakeAgrees(ch, x);
    if Enabled(k, e) {
      WritesInPlace(k, e, dir);
      hide Inv, AllSendable, Orderly, Ready, CanSend, Sendable, Taken, Given, CanTakeBytes, TakeBytes, PutBytes,
           ChanBytes, Take, PutIn;
      PutAgrees(Take(ch, x), Given(k.server, e, dir), k.now);
    }
  }

  /** A step of the one is a step of the other, to corresponding connections. */
  lemma StepAgrees(k: Conn, e: Event)
    requires Inv(k) && AllSendable(k) && Orderly(k, e) && Fits(e)
    ensures ByteEnabled(Concrete(k), e) <==> Enabled(k, e)
    ensures Enabled(k, e) ==>
              ByteApply(Concrete(k), e) == Concrete(Apply(k, e)) && Inv(Apply(k, e)) && AllSendable(Apply(k, e))
  {
    hide Inv, Sendable, Ready, CanSend, ClientAfter, ServerAfter, Taken, Given, CanTake, CanTakeBytes, Take, TakeBytes,
         ChanBytes, PutIn, PutBytes, Orderly, DownLine, Fits;
    if Ready(k.client, k.server, k.now, e) {
      ChanAgrees(k, e, Up);
      ChanAgrees(k, e, Down);
      if Enabled(k, e) {
        StepInv(k, e);
        UpSendable(k, e);
        DownSendable(k, e);
      }
    }
  }

  lemma {:induction false} RunAgrees(k: Conn, es: seq<Event>)
    requires Inv(k) && AllSendable(k) && IsByteRun(Concrete(k), es)
    ensures IsRun(k, es) && OrderlyRun(k, es)
    ensures ByteAfter(Concrete(k), es) == Concrete(After(k, es))
    ensures Inv(After(k, es)) && AllSendable(After(k, es))
    decreases |es|
  {
    hide Inv, AllSendable, ByteEnabled, Enabled, ByteApply, Apply, Sendable;
    if es != [] {
      StepAgrees(k, es[0]);
      RunAgrees(Apply(k, es[0]), es[1..]);
    }
  }

  lemma {:induction false} RunAgreesBack(k: Conn, es: seq<Event>)
    requires Inv(k) && AllSendable(k) && IsRun(k, es) && OrderlyRun(k, es) && forall e <- es :: Fits(e)
    ensures IsByteRun(Concrete(k), es) && ByteAfter(Concrete(k), es) == Concrete(After(k, es))
    ensures AllSendable(After(k, es))
    decreases |es|
  {
    hide Inv, AllSendable, ByteEnabled, Enabled, ByteApply, Apply, Sendable;
    if es != [] {
      assert es[0] in es && forall e <- es[1..] :: e in es;
      StepAgrees(k, es[0]);
      RunAgreesBack(Apply(k, es[0]), es[1..]);
    }
  }

  lemma OpenedAgrees(now: Time)
    ensures Inv(Opened(now)) && AllSendable(Opened(now)) && Concrete(Opened(now)) == ByteOpened(now)
  {
    OpenedInv(now);
    StartInv();
    assert DownLine(Opened(now)) == [];
  }

  /** Every run of the byte streams is a run of the connection of messages and raw bytes, and ends in the same bytes. */
  lemma ByteRunsAreRuns(now: Time, es: seq<Event>)
    requires IsByteRun(ByteOpened(now), es)
    ensures IsRun(Opened(now), es) && OrderlyRun(Opened(now), es)
    ensures ByteAfter(ByteOpened(now), es) == Concrete(After(Opened(now), es))
  {
    OpenedAgrees(now);
    hide Inv, AllSendable, ByteEnabled, Enabled, ByteApply, Apply, Concrete, Opened, ByteOpened;
    RunAgrees(Opened(now), es);
  }

  /** And every orderly run of messages that fit is a run of the byte streams. */
  lemma RunsAreByteRuns(now: Time, es: seq<Event>)
    requires IsRun(Opened(now), es) && OrderlyRun(Opened(now), es) && forall e <- es :: Fits(e)
    ensures IsByteRun(ByteOpened(now), es)
    ensures ByteAfter(ByteOpened(now), es) == Concrete(After(Opened(now), es)) && AllSendable(After(Opened(now), es))
  {
    OpenedAgrees(now);
    hide Inv, AllSendable, ByteEnabled, Enabled, ByteApply, Apply, Concrete, Opened, ByteOpened, Fits;
    RunAgreesBack(Opened(now), es);
  }

  // ---- Nobody meets bytes that are no message ----------------------------------

  /** What recv_msg() or the decoding behind it throws at: a length over the limit, or a payload that is no message. */
  predicate Spoiled(b: Bytes) { Receive(b).0.TooBig? || (Receive(b).0.Payload? && Incoming(b) == None) }

  /** A coroutine that waits for a message in a direction. */
  predicate Listens(c: Client, s: Server, dir: Dir) {
    if dir == Down then c.alive && c.pc.Receiving?
    else s.alive && (s.recv.NotAccepted? || s.recv.Parked? || s.visit.Reading?)
  }

  /** The step that a listening coroutine would take next. */
  function NextRead(s: Server, dir: Dir): Event {
    if dir == Down then ClientRecv(Ping)
    else if s.recv.NotAccepted? then Accept(WorkerHello("", 0))
    else if s.recv.Parked? then ServerRecv(Ping)
    else VisitRecv(Ping)
  }

  lemma ListensReady(c: Client, s: Server, now: Time, dir: Dir)
    requires Listens(c, s, dir)
    ensures Ready(c, s, now, NextRead(s, dir)) && Taken(NextRead(s, dir), dir).Message?
  {
  }

  lemma ChanIs(k: Conn, dir: Dir)
    ensures ChanOf(k, dir) == if dir == Up then k.up else k.down
  {
  }

  /** A listening coroutine looks at the front of a frame, or at an empty stream. */
  lemma ListensInPlace(k: Conn, dir: Dir)
    requires Inv(k) && Listens(k.client, k.server, dir)
    ensures ChanOf(k, dir).frames == [] ==> ChanOf(k, dir).raw == []
  {
    hide *;
    ListensReady(k.client, k.server, k.now, dir);
    LooksInPlace(k, NextRead(k.server, dir), dir);
    ChanIs(k, dir);
  }

  lemma NothingReceived()
    ensures Receive([]).0 == EndOfStream
  {
  }

  lemma FramesAreClean(ch: Chan)
    requires (forall m <- ch.frames :: Sendable(m)) && (ch.frames == [] ==> ch.raw == [])
    ensures !Spoiled(ChanBytes(ch))
  {
    hide Sendable, Frame, Encode, Receive, Incoming;
    if ch.frames == [] {
      assert ChanBytes(ch) == [];
      NothingReceived();
    } else {
      var f := ch.frames[0];
      var tail := FrameBytes(ch.frames[1..]) + ch.raw;
      assert f in ch.frames && ChanBytes(ch) == Frame(Encode(f)) + tail;
      IncomingFrame(f, tail);
    }
  }

  /**
   In every run of the bytes, what a listening coroutine has in front of it is never
   refused: neither too big nor undecodable.  So a step for refused bytes would never be
   enabled.
   */
  lemma NothingSpoiled(now: Time, es: seq<Event>, dir: Dir)
    requires IsByteRun(ByteOpened(now), es)
    ensures var b := ByteAfter(ByteOpened(now), es);
            Listens(b.client, b.server, dir) ==> !Spoiled(if dir == Up then b.up else b.down)
  {
    OpenedAgrees(now);
    hide Inv, Sendable, ByteEnabled, Enabled, ByteApply, Apply, Opened, ByteOpened, DownLine, Spoiled;
    RunAgrees(Opened(now), es);
    var k := After(Opened(now), es);
    if Listens(k.client, k.server, dir) {
      ListensInPlace(k, dir);
      LinesSendable(k, dir);
      FramesAreClean(ChanOf(k, dir));
    }
  }

  lemma LinesSendable(k: Conn, dir: Dir)
    requires AllSendable(k)
    ensures forall m <- ChanOf(k, dir).frames :: Sendable(m)
  {
    hide Sendable;
    assert forall m <- k.down.frames :: m in DownLine(k);
  }
}

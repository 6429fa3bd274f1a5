/**
 The tunnel from end to end: a source at one end, the copying coroutine of the pipe
 at its side, the connection of bytes, the copying coroutine of the other pipe, and
 a destination; once in each direction.  The control messages of the connection
 travel in the same two streams of bytes.
 */
module Tunnel {
  import opened Framing
  import opened Session
  import opened Wire
  import opened Progress
  import opened Messages
  import opened SendPath
  import opened Pipe

  /** One direction of a pipe: the chunk it has read and not yet written, and whether it ended, and how. */
  datatype Half = Half(hand: Bytes, ended: bool, broken: bool)

  /** What happens in one direction outside the connection itself. */
  datatype Flow = Flow(
    sent: Bytes, unread: Bytes, sourceEof: bool,
    first: Half, tunnelEof: bool,
    second: Half, delivered: Bytes, deliveredEof: bool)

  datatype Net = Net(conn: ByteConn, up: Flow, down: Flow)

  const IDLE := Half([], false, false)
  const SILENCE := Flow([], [], false, IDLE, false, IDLE, [], false)

  function Opening(now: Time): Net { Net(ByteOpened(now), SILENCE, SILENCE) }

  /**
   A step of the workers; the source sends or ends; a half reads at most a buffer,
   writes some of its chunk, sees an end of file, or loses its peer, and in both cases
   tries to forward an end of file, which may fail; or a pipe fails as a whole.
   */
  datatype Step =
    | Control(e: Event)
    | Send(dir: Dir, bs: Bytes)
    | SendEof(dir: Dir)
    | Read1(dir: Dir, n: nat)
    | Write1(dir: Dir, n: nat)
    | End1(dir: Dir, forwarded: bool)
    | Lose1(dir: Dir, forwarded: bool)
    | Read2(dir: Dir, n: nat)
    | Write2(dir: Dir, n: nat)
    | End2(dir: Dir, forwarded: bool)
    | Lose2(dir: Dir, forwarded: bool)
    | PipeFails(atServer: bool)

  function FlowOf(t: Net, dir: Dir): Flow { if dir == Up then t.up else t.down }

  function BytesOf(b: ByteConn, dir: Dir): Bytes { if dir == Up then b.up else b.down }

  function Opposite(dir: Dir): Dir { if dir == Up then Down else Up }

  function WithFlow(t: Net, dir: Dir, f: Flow): Net { if dir == Up then t.(up := f) else t.(down := f) }

  /** Whether the worker at an end has handed its socket to a pipe. */
  predicate Piped(b: ByteConn, atServer: bool) {
    if atServer then b.server.alive && b.server.visit.Done? else b.client.alive && b.client.pc.Piping?
  }

  /** The first half of a direction is at the side of its source: upwards the client, downwards the server. */
  predicate AtServer(dir: Dir, firstHalf: bool) { (dir == Down) == firstHalf }

  predicate Free(h: Half) { !h.ended && h.hand == [] }

  predicate Can(t: Net, x: Step) {
    match x
    case Control(e) => !e.PutRaw? && !e.TakeRaw? && ByteEnabled(t.conn, e)
    case Send(dir, _) => !FlowOf(t, dir).sourceEof
    case SendEof(dir) => !FlowOf(t, dir).sourceEof
    case Read1(dir, n) =>
      var f := FlowOf(t, dir);
      Piped(t.conn, AtServer(dir, true)) && Free(f.first) && 0 < n <= PIPE_BUFFER && n <= |f.unread|
    case Write1(dir, n) =>
      var f := FlowOf(t, dir);
      !f.first.ended && 0 < n <= |f.first.hand| && ByteEnabled(t.conn, PutRaw(dir, f.first.hand[..n]))
    case End1(dir, _) =>
      var f := FlowOf(t, dir);
      Piped(t.conn, AtServer(dir, true)) && Free(f.first) && f.unread == [] && f.sourceEof
    case Lose1(dir, _) => Piped(t.conn, AtServer(dir, true)) && !FlowOf(t, dir).first.ended
    case Read2(dir, n) =>
      var b := BytesOf(t.conn, dir);
      Free(FlowOf(t, dir).second) && 0 < n <= PIPE_BUFFER && n <= |b| && ByteEnabled(t.conn, TakeRaw(dir, b[..n]))
    case Write2(dir, n) =>
      var f := FlowOf(t, dir);
      !f.second.ended && 0 < n <= |f.second.hand|
    case End2(dir, _) =>
      var f := FlowOf(t, dir);
      Piped(t.conn, AtServer(dir, false)) && Free(f.second) && BytesOf(t.conn, dir) == [] && f.tunnelEof
    case Lose2(dir, _) => Piped(t.conn, AtServer(dir, false)) && !FlowOf(t, dir).second.ended
    case PipeFails(atServer) => Piped(t.conn, atServer)
  }

  function Lost(h: Half): Half { if h.ended then h else h.(ended := true, broken := true) }

  function LostFirst(f: Flow, forwarded: bool): Flow {
    f.(first := Lost(f.first), tunnelEof := f.tunnelEof || forwarded)
  }

  function LostSecond(f: Flow, forwarded: bool): Flow {
    f.(second := Lost(f.second), deliveredEof := f.deliveredEof || forwarded)
  }

  function Do(t: Net, x: Step): Net
    requires Can(t, x)
  {
    match x
    case Control(e) => t.(conn := ByteApply(t.conn, e))
    case Send(dir, bs) =>
      var f := FlowOf(t, dir);
      WithFlow(t, dir, f.(sent := f.sent + bs, unread := f.unread + bs))
    case SendEof(dir) => WithFlow(t, dir, FlowOf(t, dir).(sourceEof := true))
    case Read1(dir, n) =>
      var f := FlowOf(t, dir);
      WithFlow(t, dir, f.(unread := f.unread[n..], first := f.first.(hand := f.unread[..n])))
    case Write1(dir, n) =>
      var f := FlowOf(t, dir);
      WithFlow(t.(conn := ByteApply(t.conn, PutRaw(dir, f.first.hand[..n]))), dir,
               f.(first := f.first.(hand := f.first.hand[n..])))
    case End1(dir, forwarded) =>
      var f := FlowOf(t, dir);
      WithFlow(t, dir, f.(first := f.first.(ended := true), tunnelEof := f.tunnelEof || forwarded))
    case Lose1(dir, forwarded) => WithFlow(t, dir, LostFirst(FlowOf(t, dir), forwarded))
    case Read2(dir, n) =>
      var f := FlowOf(t, dir);
      var bs := BytesOf(t.conn, dir)[..n];
      WithFlow(t.(conn := ByteApply(t.conn, TakeRaw(dir, bs))), dir, f.(second := f.second.(hand := bs)))
    case Write2(dir, n) =>
      var f := FlowOf(t, dir);
      WithFlow(t, dir, f.(delivered := f.delivered + f.second.hand[..n],
                          second := f.second.(hand := f.second.hand[n..])))
    case End2(dir, forwarded) =>
      var f := FlowOf(t, dir);
      WithFlow(t, dir, f.(second := f.second.(ended := true), deliveredEof := f.deliveredEof || forwarded))
    case Lose2(dir, forwarded) => WithFlow(t, dir, LostSecond(FlowOf(t, dir), forwarded))
    case PipeFails(atServer) =>
      if atServer then t.(down := LostFirst(t.down, true), up := LostSecond(t.up, true))
      else t.(up := LostFirst(t.up, true), down := LostSecond(t.down, true))
  }

  ghost predicate Fair(t: Net, x: Step) {
    x.Control? ==> Wellbehaved(t.conn, x.e)
  }

  ghost predicate IsNetRun(t: Net, xs: seq<Step>)
    decreases |xs|
  {
    xs == [] || (Can(t, xs[0]) && Fair(t, xs[0]) && IsNetRun(Do(t, xs[0]), xs[1..]))
  }

  ghost function NetAfter(t: Net, xs: seq<Step>): Net
    requires IsNetRun(t, xs)
    decreases |xs|
  {
    if xs == [] then t else NetAfter(Do(t, xs[0]), xs[1..])
  }

  // ---- Where every byte is ---------------------------------------------------

  /**
   Every byte sent is delivered, in a hand, in the tunnel, or unread, in that order; `raw` is
   what is in the tunnel.
   */
  ghost predicate Conserved(f: Flow, raw: Bytes) {
    && f.sent == f.delivered + (f.second.hand + (raw + (f.first.hand + f.unread)))
    && |f.first.hand| <= PIPE_BUFFER && |f.second.hand| <= PIPE_BUFFER
    && (f.first.broken ==> f.first.ended) && (f.second.broken ==> f.second.ended)
    && (f.tunnelEof ==> f.first.ended)
    && (f.first.ended && !f.first.broken ==> f.sourceEof && f.first.hand + f.unread == [])
    && (f.deliveredEof ==> f.second.ended)
    && (f.second.ended && !f.second.broken ==> f.tunnelEof && f.second.hand + raw == [])
  }

  /** The connection is that of messages and raw bytes k, and in both directions no byte is lost. */
  ghost predicate Sound(t: Net, k: Conn) {
    && Reachable(k) && AllSendable(k) && t.conn == Concrete(k)
    && Conserved(t.up, k.up.raw) && Conserved(t.down, k.down.raw)
  }

  lemma OpeningSound(now: Time)
    ensures Sound(Opening(now), Opened(now))
  {
    OpenedAgrees(now);
    RunReaches(now, []);
  }

  /** The workers' own steps leave the raw bytes alone. */
  lemma ControlKeepsRaw(k: Conn, e: Event)
    requires Enabled(k, e) && !e.PutRaw? && !e.TakeRaw?
    ensures Apply(k, e).up.raw == k.up.raw && Apply(k, e).down.raw == k.down.raw
  {
  }

  /** A well-behaved step on the bytes, as a step of the workers. */
  lemma Agrees(k: Conn, e: Event)
    requires Reachable(k) && AllSendable(k) && Wellbehaved(Concrete(k), e)
    ensures ByteEnabled(Concrete(k), e) <==> Enabled(k, e)
    ensures Enabled(k, e) ==>
              ByteApply(Concrete(k), e) == Concrete(Apply(k, e)) && Reachable(Apply(k, e)) && AllSendable(Apply(k, e))
  {
    hide Inv, OpenInv, AllSendable, ByteEnabled, Enabled, ByteApply, Apply, Sendable, PathInv;
    StepAgrees(k, e);
    InvPath(k);
    if Enabled(k, e) {
      StepOpens(k, e);
    }
  }

  lemma ControlSound(t: Net, k: Conn, e: Event)
    requires Sound(t, k) && Can(t, Control(e)) && Wellbehaved(t.conn, e)
    ensures Enabled(k, e) && Sound(Do(t, Control(e)), Apply(k, e))
  {
    assert Reachable(k);
    hide Inv, OpenInv, AllSendable, ByteEnabled, Enabled, ByteApply, Apply, Sendable, Conserved, Reachable;
    Agrees(k, e);
    ControlKeepsRaw(k, e);
  }

  /** The steps that leave the connection alone. */
  predicate Local(x: Step) { !x.Control? && !x.Write1? && !x.Read2? }

  lemma ReadConserved(f: Flow, raw: Bytes, n: nat)
    requires Conserved(f, raw) && Free(f.first) && n <= PIPE_BUFFER && n <= |f.unread|
    ensures Conserved(f.(unread := f.unread[n..], first := f.first.(hand := f.unread[..n])), raw)
  {
    assert [] + f.unread == f.unread == f.unread[..n] + f.unread[n..];
  }

  lemma SendConserved(f: Flow, raw: Bytes, bs: Bytes)
    requires Conserved(f, raw) && !f.sourceEof
    ensures Conserved(f.(sent := f.sent + bs, unread := f.unread + bs), raw)
  {
  }

  lemma WriteConserved(f: Flow, raw: Bytes, n: nat)
    requires Conserved(f, raw) && !f.first.ended && n <= |f.first.hand|
    ensures Conserved(f.(first := f.first.(hand := f.first.hand[n..])), raw + f.first.hand[..n])
  {
    var h := f.first.hand;
    assert h == h[..n] + h[n..];
    assert raw + (h + f.unread) == (raw + h[..n]) + (h[n..] + f.unread);
  }

  lemma TakeConserved(f: Flow, raw: Bytes, n: nat)
    requires Conserved(f, raw) && Free(f.second) && n <= PIPE_BUFFER && n <= |raw|
    ensures Conserved(f.(second := f.second.(hand := raw[..n])), raw[n..])
  {
    var rest := f.first.hand + f.unread;
    assert raw == raw[..n] + raw[n..];
    assert [] + (raw + rest) == raw[..n] + (raw[n..] + rest);
  }

  lemma DeliverConserved(f: Flow, raw: Bytes, n: nat)
    requires Conserved(f, raw) && !f.second.ended && n <= |f.second.hand|
    ensures Conserved(f.(delivered := f.delivered + f.second.hand[..n],
                         second := f.second.(hand := f.second.hand[n..])), raw)
  {
    var h, rest := f.second.hand, raw + (f.first.hand + f.unread);
    assert h == h[..n] + h[n..];
    assert f.delivered + (h + rest) == (f.delivered + h[..n]) + (h[n..] + rest);
  }

  lemma LoseConserved(f: Flow, raw: Bytes, forwarded: bool)
    requires Conserved(f, raw)
    ensures Conserved(LostFirst(f, forwarded), raw) && Conserved(LostSecond(f, forwarded), raw)
  {
  }

  lemma EndConserved(f: Flow, raw: Bytes, forwarded: bool)
    requires Conserved(f, raw)
    ensures Conserved(f.(sourceEof := true), raw)
    ensures Free(f.first) && f.unread == [] && f.sourceEof ==>
              Conserved(f.(first := f.first.(ended := true), tunnelEof := f.tunnelEof || forwarded), raw)
    ensures Free(f.second) && raw == [] && f.tunnelEof ==>
              Conserved(f.(second := f.second.(ended := true), deliveredEof := f.deliveredEof || forwarded), raw)
  {
  }

  function RawOf(k: Conn, dir: Dir): Bytes { if dir == Up then k.up.raw else k.down.raw }

  lemma LocalConserved(t: Net, x: Step, dir: Dir, raw: Bytes)
    requires Can(t, x) && Local(x) && Conserved(FlowOf(t, dir), raw)
    requires x.End2? && x.dir == dir ==> raw == []
    ensures Conserved(FlowOf(Do(t, x), dir), raw)
  {
    hide Conserved, ByteEnabled, ByteApply, BytesOf, Piped, LostFirst, LostSecond;
    var f := FlowOf(t, dir);
    match x
    case PipeFails(_) => LoseConserved(f, raw, true);
    case Send(d, bs) => if d == dir { SendConserved(f, raw, bs); }
    case Read1(d, n) => if d == dir { ReadConserved(f, raw, n); }
    case Write2(d, n) => if d == dir { DeliverConserved(f, raw, n); }
    case Lose1(d, forwarded) => LoseConserved(f, raw, forwarded);
    case Lose2(d, forwarded) => LoseConserved(f, raw, forwarded);
    case SendEof(_) => EndConserved(f, raw, true);
    case End1(_, forwarded) => EndConserved(f, raw, forwarded);
    case End2(_, forwarded) => EndConserved(f, raw, forwarded);
  }

  /** In a direction whose destination side is piped, the stream is nothing but raw bytes. */
  lemma PipedIsRaw(k: Conn, dir: Dir)
    requires Inv(k) && Piped(Concrete(k), AtServer(dir, false))
    ensures BytesOf(Concrete(k), dir) == RawOf(k, dir)
  {
    hide PathInv, Outbox;
    if dir == Down {
      assert DownLine(k) == [];
    }
    assert FrameBytes([]) == [];
  }

  lemma LocalSound(t: Net, k: Conn, x: Step)
    requires Sound(t, k) && Can(t, x) && Local(x)
    ensures Sound(Do(t, x), k)
  {
    if x.End2? {
      PipedIsRaw(k, x.dir);
    }
    hide Inv, Reachable, AllSendable, Conserved, ByteEnabled, ByteApply, Piped, Concrete;
    assert Do(t, x).conn == t.conn;
    LocalConserved(t, x, Up, k.up.raw);
    LocalConserved(t, x, Down, k.down.raw);
  }

  lemma PutKeepsRaw(k: Conn, dir: Dir, bs: Bytes)
    requires Enabled(k, PutRaw(dir, bs))
    ensures var k' := Apply(k, PutRaw(dir, bs));
            RawOf(k', dir) == RawOf(k, dir) + bs && RawOf(k', Opposite(dir)) == RawOf(k, Opposite(dir))
  {
  }

  /** The connection moved on to k', and with it the flow of one direction. */
  lemma Reassembled(t: Net, k': Conn, dir: Dir, f: Flow)
    requires Reachable(k') && AllSendable(k')
    requires Conserved(f, RawOf(k', dir)) && Conserved(FlowOf(t, Opposite(dir)), RawOf(k', Opposite(dir)))
    ensures Sound(WithFlow(t.(conn := Concrete(k')), dir, f), k')
  {
    hide Inv, Reachable, AllSendable, Concrete, Conserved;
  }

  lemma Disassembled(t: Net, k: Conn, dir: Dir)
    requires Sound(t, k)
    ensures Reachable(k) && Inv(k) && AllSendable(k) && t.conn == Concrete(k)
    ensures Conserved(FlowOf(t, dir), RawOf(k, dir))
  {
    hide Inv, AllSendable, Concrete, Conserved;
  }

  lemma Write1Effect(t: Net, dir: Dir, n: nat)
    requires Can(t, Write1(dir, n))
    ensures var f := FlowOf(t, dir);
            && !f.first.ended && n <= |f.first.hand| && ByteEnabled(t.conn, PutRaw(dir, f.first.hand[..n]))
            && Do(t, Write1(dir, n)) ==
               WithFlow(t.(conn := ByteApply(t.conn, PutRaw(dir, f.first.hand[..n]))), dir,
                        f.(first := f.first.(hand := f.first.hand[n..])))
  {
    hide ByteEnabled, ByteApply, WithFlow, FlowOf;
  }

  lemma Write1Sound(t: Net, k: Conn, dir: Dir, n: nat) returns (k': Conn)
    requires Sound(t, k) && Can(t, Write1(dir, n))
    ensures Sound(Do(t, Write1(dir, n)), k')
  {
    hide Inv, Reachable, AllSendable, ByteEnabled, Enabled, ByteApply, Apply, Conserved, Sound, Concrete, RawOf, Do,
         Can, WithFlow, FlowOf;
    var f := FlowOf(t, dir);
    Write1Effect(t, dir, n);
    var bs := f.first.hand[..n];
    Disassembled(t, k, dir);
    Disassembled(t, k, Opposite(dir));
    Agrees(k, PutRaw(dir, bs));
    k' := Apply(k, PutRaw(dir, bs));
    PutKeepsRaw(k, dir, bs);
    WriteConserved(f, RawOf(k, dir), n);
    Reassembled(t, k', dir, f.(first := f.first.(hand := f.first.hand[n..])));
  }

  lemma TakeKeepsRaw(k: Conn, dir: Dir, bs: Bytes)
    requires Enabled(k, TakeRaw(dir, bs))
    ensures bs <= RawOf(k, dir)
    ensures var k' := Apply(k, TakeRaw(dir, bs));
            RawOf(k', dir) == RawOf(k, dir)[|bs|..] && RawOf(k', Opposite(dir)) == RawOf(k, Opposite(dir))
  {
  }

  lemma Read2Effect(t: Net, dir: Dir, n: nat)
    requires Can(t, Read2(dir, n))
    ensures var f := FlowOf(t, dir);
            var b := BytesOf(t.conn, dir);
            && Free(f.second) && n <= PIPE_BUFFER && n <= |b| && ByteEnabled(t.conn, TakeRaw(dir, b[..n]))
            && Do(t, Read2(dir, n)) ==
               WithFlow(t.(conn := ByteApply(t.conn, TakeRaw(dir, b[..n]))), dir,
                 f.(second := f.second.(hand := b[..n])))
  {
    hide ByteEnabled, ByteApply, WithFlow, FlowOf, BytesOf;
  }

  lemma TakerIsPiped(b: ByteConn, dir: Dir, bs: Bytes)
    requires ByteEnabled(b, TakeRaw(dir, bs))
    ensures Piped(b, AtServer(dir, false))
  {
  }

  lemma Read2Sound(t: Net, k: Conn, dir: Dir, n: nat) returns (k': Conn)
    requires Sound(t, k) && Can(t, Read2(dir, n))
    ensures Sound(Do(t, Read2(dir, n)), k')
  {
    hide Inv, Reachable, AllSendable, ByteEnabled, Enabled, ByteApply, Apply, Conserved, Sound, Concrete, RawOf, Do,
         Can, WithFlow, FlowOf, Piped, BytesOf;
    var f := FlowOf(t, dir);
    Read2Effect(t, dir, n);
    var bs := BytesOf(t.conn, dir)[..n];
    Disassembled(t, k, dir);
    Disassembled(t, k, Opposite(dir));
    TakerIsPiped(t.conn, dir, bs);
    PipedIsRaw(k, dir);
    Agrees(k, TakeRaw(dir, bs));
    k' := Apply(k, TakeRaw(dir, bs));
    TakeKeepsRaw(k, dir, bs);
    TakeConserved(f, RawOf(k, dir), n);
    Reassembled(t, k', dir, f.(second := f.second.(hand := bs)));
  }

  lemma StepSound(t: Net, k: Conn, x: Step) returns (k': Conn)
    requires Sound(t, k) && Can(t, x) && Fair(t, x)
    ensures Sound(Do(t, x), k')
  {
    hide Sound, Can, Do;
    match x
    case Control(e) =>
      ControlSound(t, k, e);
      k' := Apply(k, e);
    case Write1(dir, n) => k' := Write1Sound(t, k, dir, n);
    case Read2(dir, n) => k' := Read2Sound(t, k, dir, n);
    case _ =>
      LocalSound(t, k, x);
      k' := k;
  }

  lemma {:induction false} RunSound(t: Net, k: Conn, xs: seq<Step>) returns (k': Conn)
    requires Sound(t, k) && IsNetRun(t, xs)
    ensures Sound(NetAfter(t, xs), k')
    decreases |xs|
  {
    hide Sound, Can, Do;
    k' := k;
    if xs != [] {
      k' := StepSound(t, k, xs[0]);
      k' := RunSound(Do(t, xs[0]), k', xs[1..]);
    }
  }

  // ---- What the ends can rely on ----------------------------------------------

  /**
   In every run, what is delivered at each end is a prefix of what was sent at the
   other, whatever the workers put on the same stream before.
   */
  lemma Transparent(now: Time, xs: seq<Step>, dir: Dir)
    requires IsNetRun(Opening(now), xs)
    ensures var f := FlowOf(NetAfter(Opening(now), xs), dir); f.delivered <= f.sent
  {
    OpeningSound(now);
    var k := RunSound(Opening(now), Opened(now), xs);
    hide Inv, AllSendable, Concrete;
  }

  /**
   What an end of file says.  In every run, whatever was lost: an end of file that was
   delivered is behind everything sent if and only if no byte is left in a hand, on the
   stream or unread; and so it is, after the source's own end, when no half lost its peer.
   */
  lemma EofMeansAll(now: Time, xs: seq<Step>, dir: Dir)
    requires IsNetRun(Opening(now), xs)
    ensures var t := NetAfter(Opening(now), xs);
            var f := FlowOf(t, dir);
            && (Piped(t.conn, AtServer(dir, false)) ==>
                  (f.delivered == f.sent <==>
                     f.second.hand + (BytesOf(t.conn, dir) + (f.first.hand + f.unread)) == []))
            && (f.deliveredEof && !f.first.broken && !f.second.broken ==> f.sourceEof && f.delivered == f.sent)
  {
    OpeningSound(now);
    hide Sound, Piped;
    var k := RunSound(Opening(now), Opened(now), xs);
    var t := NetAfter(Opening(now), xs);
    var f := FlowOf(t, dir);
    Disassembled(t, k, dir);
    hide Inv, Reachable, AllSendable, Concrete;
    if Piped(t.conn, AtServer(dir, false)) {
      PipedIsRaw(k, dir);
    }
    if f.deliveredEof && !f.first.broken && !f.second.broken {
      NothingLeft(f, RawOf(k, dir));
    }
  }

  lemma NothingLeft(f: Flow, raw: Bytes)
    requires Conserved(f, raw) && f.deliveredEof && !f.first.broken && !f.second.broken
    ensures f.sourceEof && f.delivered == f.sent
  {
    assert |f.sent| == |f.delivered| + |f.second.hand + raw| + |f.first.hand + f.unread|;
  }

  /** The steps of the coroutines that copy in a direction, as long as they lose no peer and forward what they see. */
  predicate Copies(x: Step, dir: Dir) {
    && (x.Read1? || x.Write1? || x.End1? || x.Read2? || x.Write2? || x.End2?) && x.dir == dir
    && (x.End1? || x.End2? ==> x.forwarded)
  }

  /** Every end of file that was seen has been forwarded. */
  predicate Forwarded(f: Flow) { (f.first.ended ==> f.tunnelEof) && (f.second.ended ==> f.deliveredEof) }

  /** No coroutine that copies in this direction can take a step. */
  ghost predicate Quiet(t: Net, dir: Dir) {
    forall x: Step :: Copies(x, dir) ==> !Can(t, x)
  }

  lemma FirstMoves(t: Net, dir: Dir) returns (x: Step)
    requires FlowOf(t, dir).sourceEof && Piped(t.conn, AtServer(dir, true)) && !FlowOf(t, dir).first.ended
    ensures Copies(x, dir) && Can(t, x)
  {
    var f := FlowOf(t, dir);
    x := if f.first.hand != [] then Write1(dir, 1) else if f.unread != [] then Read1(dir, 1) else End1(dir, true);
  }

  lemma SecondMoves(t: Net, dir: Dir) returns (x: Step)
    requires FlowOf(t, dir).tunnelEof && Piped(t.conn, AtServer(dir, false)) && !FlowOf(t, dir).second.ended
    ensures Copies(x, dir) && Can(t, x)
  {
    var f := FlowOf(t, dir);
    x := if f.second.hand != [] then Write2(dir, 1) else if BytesOf(t.conn, dir) != [] then Read2(dir, 1)
      else End2(dir, true);
  }

  lemma QuietEnds(t: Net, dir: Dir, raw: Bytes)
    requires Conserved(FlowOf(t, dir), raw) && Quiet(t, dir)
    requires FlowOf(t, dir).sourceEof && Forwarded(FlowOf(t, dir))
    requires Piped(t.conn, true) && Piped(t.conn, false)
    ensures FlowOf(t, dir).second.ended
  {
    hide Can, Copies, Piped;
    if !FlowOf(t, dir).first.ended {
      var x := FirstMoves(t, dir);
    } else if !FlowOf(t, dir).second.ended {
      var x := SecondMoves(t, dir);
    }
  }

  lemma RestDelivers(t: Net, k: Conn, dir: Dir)
    requires Sound(t, k) && Quiet(t, dir) && FlowOf(t, dir).sourceEof && Forwarded(FlowOf(t, dir))
    requires !FlowOf(t, dir).first.broken && !FlowOf(t, dir).second.broken
    requires Piped(t.conn, true) && Piped(t.conn, false)
    ensures var f := FlowOf(t, dir); f.deliveredEof && f.delivered == f.sent
  {
    Disassembled(t, k, dir);
    hide Inv, AllSendable, Concrete, Quiet, Piped, Sound, Reachable;
    QuietEnds(t, dir, RawOf(k, dir));
    NothingLeft(FlowOf(t, dir), RawOf(k, dir));
  }

  /**
   In every run without a lost peer that has come to rest, with the source at its end
   of file and a pipe at both sides, everything that was sent is delivered, and so is
   the end of file, if it could be forwarded.
   */
  lemma QuietMeansDelivered(now: Time, xs: seq<Step>, dir: Dir)
    requires IsNetRun(Opening(now), xs)
    requires var t := NetAfter(Opening(now), xs);
             && Quiet(t, dir) && FlowOf(t, dir).sourceEof && Forwarded(FlowOf(t, dir))
             && !FlowOf(t, dir).first.broken && !FlowOf(t, dir).second.broken
             && Piped(t.conn, true) && Piped(t.conn, false)
    ensures var f := FlowOf(NetAfter(Opening(now), xs), dir); f.deliveredEof && f.delivered == f.sent
  {
    OpeningSound(now);
    hide *;
    var k := RunSound(Opening(now), Opened(now), xs);
    RestDelivers(NetAfter(Opening(now), xs), k, dir);
  }

  // ---- Copying comes to an end -------------------------------------------------

  /** Every byte has some steps ahead of it, and each half one to end. */
  function Work(t: Net, dir: Dir): nat {
    var f := FlowOf(t, dir);
    4 * |f.unread| + 3 * |f.first.hand| + 2 * |BytesOf(t.conn, dir)| + |f.second.hand|
    + (if f.first.ended then 0 else 1) + (if f.second.ended then 0 else 1)
  }

  lemma PutLength(b: ByteConn, dir: Dir, bs: Bytes)
    requires ByteEnabled(b, PutRaw(dir, bs))
    ensures var b' := ByteApply(b, PutRaw(dir, bs));
            BytesOf(b', dir) == BytesOf(b, dir) + bs && b'.client == b.client && b'.server == b.server
  {
  }

  lemma TakeLength(b: ByteConn, dir: Dir, bs: Bytes)
    requires ByteEnabled(b, TakeRaw(dir, bs))
    ensures var b' := ByteApply(b, TakeRaw(dir, bs));
            bs <= BytesOf(b, dir) && BytesOf(b', dir) == BytesOf(b, dir)[|bs|..] && b'.client == b.client &&
              b'.server == b.server
  {
  }

  /** What a copying step leaves as it was. */
  ghost predicate Continues(t: Net, t': Net, dir: Dir) {
    var f, f' := FlowOf(t, dir), FlowOf(t', dir);
    && t'.conn.client == t.conn.client && t'.conn.server == t.conn.server
    && f'.sent == f.sent && f'.sourceEof == f.sourceEof
    && f'.first.broken == f.first.broken && f'.second.broken == f.second.broken
    && (Forwarded(f) ==> Forwarded(f')) && (f.tunnelEof ==> f'.tunnelEof)
  }

  lemma Write1Works(t: Net, dir: Dir, n: nat)
    requires Can(t, Write1(dir, n)) && n > 0
    ensures Work(Do(t, Write1(dir, n)), dir) < Work(t, dir) && Continues(t, Do(t, Write1(dir, n)), dir)
  {
    Write1Effect(t, dir, n);
    hide Do, Can, ByteEnabled, ByteApply, BytesOf;
    PutLength(t.conn, dir, FlowOf(t, dir).first.hand[..n]);
  }

  lemma Read2Works(t: Net, dir: Dir, n: nat)
    requires Can(t, Read2(dir, n)) && n > 0
    ensures Work(Do(t, Read2(dir, n)), dir) < Work(t, dir) && Continues(t, Do(t, Read2(dir, n)), dir)
  {
    Read2Effect(t, dir, n);
    hide Do, Can, ByteEnabled, ByteApply, BytesOf;
    TakeLength(t.conn, dir, BytesOf(t.conn, dir)[..n]);
  }

  lemma CopyWorks(t: Net, x: Step, dir: Dir)
    requires Can(t, x) && Copies(x, dir)
    ensures Work(Do(t, x), dir) < Work(t, dir) && Continues(t, Do(t, x), dir)
  {
    hide ByteEnabled, ByteApply, BytesOf, Piped;
    match x
    case Write1(_, n) =>
      hide Do, Work, Continues;
      Write1Works(t, dir, n);
    case Read2(_, n) =>
      hide Do, Work, Continues;
      Read2Works(t, dir, n);
    case _ =>
  }

  /** Copying alone never goes on for ever. */
  lemma {:induction false} CopyingEnds(t: Net, xs: seq<Step>, dir: Dir)
    requires IsNetRun(t, xs) && forall x <- xs :: Copies(x, dir)
    ensures |xs| <= Work(t, dir)
    decreases |xs|
  {
    hide Can, Do, Copies, Work;
    if xs != [] {
      assert xs[0] in xs && forall x <- xs[1..] :: x in xs;
      CopyWorks(t, xs[0], dir);
      CopyingEnds(Do(t, xs[0]), xs[1..], dir);
    }
  }

  /** The coroutines that copy in a direction can be run until none of them has anything to do. */
  lemma {:induction false} RunCopies(t: Net, dir: Dir) returns (xs: seq<Step>)
    ensures IsNetRun(t, xs) && (forall x <- xs :: Copies(x, dir))
    ensures Quiet(NetAfter(t, xs), dir) && Continues(t, NetAfter(t, xs), dir)
    decreases Work(t, dir)
  {
    if Quiet(t, dir) {
      xs := [];
    } else {
      var x: Step :| Copies(x, dir) && Can(t, x);
      CopyWorks(t, x, dir);
      hide Can, Do, Work, Quiet;
      var more := RunCopies(Do(t, x), dir);
      xs := [x] + more;
      assert xs[1..] == more;
      assert !x.Control?;
    }
  }

  /** No peer was lost in a direction, its source has ended, and what was seen of that was forwarded. */
  predicate Unbroken(f: Flow) { f.sourceEof && !f.first.broken && !f.second.broken && Forwarded(f) }

  lemma EverythingArrivesFrom(t: Net, k: Conn, dir: Dir) returns (ys: seq<Step>)
    requires Sound(t, k) && Unbroken(FlowOf(t, dir)) && Piped(t.conn, true) && Piped(t.conn, false)
    ensures IsNetRun(t, ys) && (forall y <- ys :: Copies(y, dir)) && |ys| <= Work(t, dir)
    ensures var f := FlowOf(NetAfter(t, ys), dir);
            f.deliveredEof && f.delivered == f.sent == FlowOf(t, dir).sent
  {
    ys := RunCopies(t, dir);
    CopyingEnds(t, ys, dir);
    SamePipes(t, NetAfter(t, ys), dir);
    UnbrokenMeans(FlowOf(t, dir));
    hide *;
    var k' := RunSound(t, k, ys);
    RestDelivers(NetAfter(t, ys), k', dir);
  }

  lemma UnbrokenMeans(f: Flow)
    requires Unbroken(f)
    ensures f.sourceEof && !f.first.broken && !f.second.broken && Forwarded(f)
  {
  }

  /**
   Everything arrives: from every state that a run can reach with a pipe at both sides,
   the source at its end of file, no peer lost and no end of file withheld, the copying
   coroutines alone bring every byte and the end of file to the destination.
   */
  lemma EverythingArrives(now: Time, xs: seq<Step>, dir: Dir) returns (ys: seq<Step>)
    requires IsNetRun(Opening(now), xs)
    requires var t := NetAfter(Opening(now), xs);
             Unbroken(FlowOf(t, dir)) && Piped(t.conn, true) && Piped(t.conn, false)
    ensures var t := NetAfter(Opening(now), xs);
            && IsNetRun(t, ys) && (forall y <- ys :: Copies(y, dir)) && |ys| <= Work(t, dir)
            && var f := FlowOf(NetAfter(t, ys), dir); f.deliveredEof && f.delivered == f.sent == FlowOf(t, dir).sent
  {
    OpeningSound(now);
    hide *;
    var k := RunSound(Opening(now), Opened(now), xs);
    ys := EverythingArrivesFrom(NetAfter(Opening(now), xs), k, dir);
  }

  lemma SamePipes(t: Net, t': Net, dir: Dir)
    requires Continues(t, t', dir)
    ensures var f, f' := FlowOf(t, dir), FlowOf(t', dir);
            && f'.sent == f.sent && f'.sourceEof == f.sourceEof
            && f'.first.broken == f.first.broken && f'.second.broken == f.second.broken
            && (Forwarded(f) ==> Forwarded(f')) && (f.tunnelEof ==> f'.tunnelEof)
    ensures forall atServer :: Piped(t'.conn, atServer) <==> Piped(t.conn, atServer)
  {
  }

  lemma {:induction false} Joined(t: Net, xs: seq<Step>, ys: seq<Step>)
    requires IsNetRun(t, xs) && IsNetRun(NetAfter(t, xs), ys)
    ensures IsNetRun(t, xs + ys) && NetAfter(t, xs + ys) == NetAfter(NetAfter(t, xs), ys)
    decreases |xs|
  {
    hide Can, Do, Fair;
    if xs == [] {
      assert xs + ys == ys;
    } else {
      Joined(Do(t, xs[0]), xs[1..], ys);
      assert (xs + ys)[1..] == xs[1..] + ys;
    }
  }

  // ---- A lost source ---------------------------------------------------------------

  /**
   Since the loss of its source f0, a direction has not taken up any of the bytes that were not
   on the stream then.
   */
  ghost predicate SinceLoss(f0: Flow, f: Flow) {
    && f.first == Lost(f0.first) && f0.sent <= f.sent
    && f.unread == f0.unread + f.sent[|f0.sent|..]
  }

  lemma StepSinceLoss(t: Net, x: Step, dir: Dir, f0: Flow)
    requires SinceLoss(f0, FlowOf(t, dir)) && !f0.first.ended && Can(t, x)
    ensures SinceLoss(f0, FlowOf(Do(t, x), dir))
  {
    hide ByteEnabled, ByteApply, BytesOf, Piped;
    if x.Send? && x.dir == dir {
      var f := FlowOf(t, dir);
      assert (f.sent + x.bs)[|f0.sent|..] == f.sent[|f0.sent|..] + x.bs;
      Grows(f0.unread, f.sent[|f0.sent|..], x.bs);
    }
  }

  lemma Grows(a: Bytes, b: Bytes, c: Bytes)
    ensures (a + b) + c == a + (b + c)
  {
  }

  lemma {:induction false} RunSinceLoss(t: Net, xs: seq<Step>, dir: Dir, f0: Flow)
    requires SinceLoss(f0, FlowOf(t, dir)) && !f0.first.ended && IsNetRun(t, xs)
    ensures SinceLoss(f0, FlowOf(NetAfter(t, xs), dir))
    decreases |xs|
  {
    hide SinceLoss, Can, Do, FlowOf;
    if xs != [] {
      StepSinceLoss(t, xs[0], dir, f0);
      RunSinceLoss(Do(t, xs[0]), xs[1..], dir, f0);
    }
  }

  /** What has been delivered by a clean end of file behind a loss. */
  lemma DeliveredAtLoss(f0: Flow, f: Flow, raw: Bytes)
    requires SinceLoss(f0, f) && Conserved(f, raw) && f.deliveredEof && !f.second.broken
    ensures f0.sent == f.delivered + (f0.first.hand + f0.unread)
    ensures f.delivered == f.sent <==> f0.first.hand + f0.unread == [] && f.sent == f0.sent
  {
    var rest := f.sent[|f0.sent|..];
    assert f.sent == f0.sent + rest;
    assert f.second.hand + (raw + (f.first.hand + f.unread)) == f.first.hand + f.unread by {
      assert f.second.hand + raw == [];
      assert f.second.hand == [] && raw == [];
    }
    hide Conserved;
    assert f.sent == (f.delivered + (f0.first.hand + f0.unread)) + rest by {
      Grows(f0.first.hand, f0.unread, rest);
      Grows(f.delivered, f0.first.hand + f0.unread, rest);
    }
    SameEnd(f0.sent, f.delivered + (f0.first.hand + f0.unread), rest);
  }

  lemma SameEnd(a: Bytes, b: Bytes, c: Bytes)
    requires a + c == b + c
    ensures a == b
  {
    assert |a| == |b|;
    assert a == (a + c)[..|a|] && b == (b + c)[..|b|];
  }

  /** The source side is lost, by its first half or with its whole pipe, and the end of file forwarded. */
  predicate LosesSource(x: Step, dir: Dir) {
    x == Lose1(dir, true) || x == PipeFails(AtServer(dir, true))
  }

  lemma LossBegins(t: Net, x: Step, dir: Dir)
    requires Can(t, x) && LosesSource(x, dir) && !FlowOf(t, dir).first.ended
    ensures Fair(t, x)
    ensures var t' := Do(t, x);
            && SinceLoss(FlowOf(t, dir), FlowOf(t', dir)) && t'.conn == t.conn && FlowOf(t', dir).tunnelEof
            && FlowOf(t', dir).second == FlowOf(t, dir).second && FlowOf(t', dir).first.ended
            && FlowOf(t', dir).deliveredEof == FlowOf(t, dir).deliveredEof
            && FlowOf(t', dir).sent == FlowOf(t, dir).sent
  {
  }

  /** In every run, whatever happens behind the loss of a source: what a clean end of file can mean then. */
  lemma EofBehindLoss(now: Time, xs: seq<Step>, dir: Dir, x: Step, zs: seq<Step>)
    requires IsNetRun(Opening(now), xs)
    requires var t := NetAfter(Opening(now), xs);
             && Can(t, x) && LosesSource(x, dir) && !FlowOf(t, dir).first.ended && IsNetRun(Do(t, x), zs)
    ensures var f0 := FlowOf(NetAfter(Opening(now), xs), dir);
            var f := FlowOf(NetAfter(Do(NetAfter(Opening(now), xs), x), zs), dir);
            f.deliveredEof && !f.second.broken ==>
              && f0.sent == f.delivered + (f0.first.hand + f0.unread)
              && (f.delivered == f.sent <==> f0.first.hand + f0.unread == [] && f.sent == f0.sent)
  {
    var t := NetAfter(Opening(now), xs);
    LossBegins(t, x, dir);
    OpeningSound(now);
    hide Reachable, AllSendable, Concrete, Can, Do, Fair, Sound, Conserved, SinceLoss, Opening, FlowOf, Piped;
    var k := RunSound(Opening(now), Opened(now), xs);
    var t1 := Do(t, x);
    k := StepSound(t, k, x);
    k := RunSound(t1, k, zs);
    RunSinceLoss(t1, zs, dir, FlowOf(t, dir));
    Disassembled(NetAfter(t1, zs), k, dir);
    var f := FlowOf(NetAfter(t1, zs), dir);
    if f.deliveredEof && !f.second.broken {
      DeliveredAtLoss(FlowOf(t, dir), f, RawOf(k, dir));
    }
  }

  /** At rest behind a forwarded end of file, the second half has ended. */
  lemma RestEnds(t0: Net, t: Net, dir: Dir)
    requires Continues(t0, t, dir) && Quiet(t, dir) && FlowOf(t, dir).tunnelEof
    requires Piped(t0.conn, AtServer(dir, false))
    ensures FlowOf(t, dir).second.ended
  {
    assert Piped(t.conn, AtServer(dir, false));
    hide Can, Copies, Piped;
    if !FlowOf(t, dir).second.ended {
      var x := SecondMoves(t, dir);
    }
  }

  lemma BrokenHasEnded(f: Flow, raw: Bytes)
    requires Conserved(f, raw)
    ensures f.second.broken ==> f.second.ended
  {
  }

  lemma EndedIsForwarded(f: Flow)
    requires Forwarded(f) && f.second.ended
    ensures f.deliveredEof
  {
  }

  lemma LossIsForwarded(f: Flow)
    requires f.tunnelEof && !f.second.ended
    ensures Forwarded(f)
  {
  }

  /**
   A reset of the source looks like an end of file.  In every run, when the source side of a
   direction is lost while the other pipe is up and its half at work, the copying steps alone
   bring a clean end of file to the destination; and everything sent was delivered if and only
   if the lost half had nothing in hand and nothing unread.
   */
  lemma ResetLooksLikeEof(now: Time, xs: seq<Step>, dir: Dir, x: Step) returns (ys: seq<Step>)
    requires IsNetRun(Opening(now), xs)
    requires var t := NetAfter(Opening(now), xs);
             && Can(t, x) && LosesSource(x, dir) && Piped(t.conn, AtServer(dir, false))
             && !FlowOf(t, dir).first.ended && !FlowOf(t, dir).second.ended
    ensures var t := NetAfter(Opening(now), xs);
            var f0 := FlowOf(t, dir);
            && Fair(t, x) && IsNetRun(Do(t, x), ys) && (forall y <- ys :: Copies(y, dir))
            && var f := FlowOf(NetAfter(Do(t, x), ys), dir);
               && f.deliveredEof && !f.second.broken && f.sent == f0.sent
               && (f.delivered == f.sent <==> f0.first.hand + f0.unread == [])
  {
    var t := NetAfter(Opening(now), xs);
    LossBegins(t, x, dir);
    var t1 := Do(t, x);
    assert Piped(t1.conn, AtServer(dir, false));
    LossIsForwarded(FlowOf(t1, dir));
    OpeningSound(now);
    var k := RunSound(Opening(now), Opened(now), xs);
    Disassembled(t, k, dir);
    assert !FlowOf(t, dir).second.broken by { BrokenHasEnded(FlowOf(t, dir), RawOf(k, dir)); }
    ys := RunCopies(t1, dir);
    SamePipes(t1, NetAfter(t1, ys), dir);
    hide *;
    RestEnds(t1, NetAfter(t1, ys), dir);
    EndedIsForwarded(FlowOf(NetAfter(t1, ys), dir));
    EofBehindLoss(now, xs, dir, x, ys);
  }

  // ---- A lost tunnel -----------------------------------------------------------------

  /** The destination side of a direction loses the tunnel, and the end of file is forwarded all the same. */
  predicate LosesTunnel(x: Step, dir: Dir) {
    x == Lose2(dir, true) || x == PipeFails(AtServer(dir, false))
  }

  /** Since the loss of its tunnel f0, a direction delivers nothing more. */
  ghost predicate SinceCut(f0: Flow, f: Flow) {
    f.second == Lost(f0.second) && f.delivered == f0.delivered && f.deliveredEof && f0.sent <= f.sent
  }

  lemma StepSinceCut(t: Net, x: Step, dir: Dir, f0: Flow)
    requires SinceCut(f0, FlowOf(t, dir)) && !f0.second.ended && Can(t, x)
    ensures SinceCut(f0, FlowOf(Do(t, x), dir))
  {
    hide ByteEnabled, ByteApply, BytesOf, Piped;
  }

  lemma {:induction false} RunSinceCut(t: Net, xs: seq<Step>, dir: Dir, f0: Flow)
    requires SinceCut(f0, FlowOf(t, dir)) && !f0.second.ended && IsNetRun(t, xs)
    ensures SinceCut(f0, FlowOf(NetAfter(t, xs), dir))
    decreases |xs|
  {
    hide SinceCut, Can, Do, FlowOf;
    if xs != [] {
      StepSinceCut(t, xs[0], dir, f0);
      RunSinceCut(Do(t, xs[0]), xs[1..], dir, f0);
    }
  }

  lemma CutBegins(t: Net, x: Step, dir: Dir)
    requires Can(t, x) && LosesTunnel(x, dir) && !FlowOf(t, dir).second.ended
    ensures Piped(t.conn, AtServer(dir, false)) && Fair(t, x)
    ensures SinceCut(FlowOf(t, dir), FlowOf(Do(t, x), dir))
  {
  }

  /**
   A lost tunnel looks like an end of file too.  In every run, when the destination side of a
   direction loses the tunnel, the destination has a clean end of file from then on and gets
   nothing more, whatever happens; and everything sent was delivered if and only if nothing
   was in a hand, on the stream or unread at the loss, and nothing was sent after it.
   */
  lemma LostTunnelLooksLikeEof(now: Time, xs: seq<Step>, dir: Dir, x: Step, zs: seq<Step>)
    requires IsNetRun(Opening(now), xs)
    requires var t := NetAfter(Opening(now), xs);
             && Can(t, x) && LosesTunnel(x, dir) && !FlowOf(t, dir).second.ended && IsNetRun(Do(t, x), zs)
    ensures var t := NetAfter(Opening(now), xs);
            var f0, f := FlowOf(t, dir), FlowOf(NetAfter(Do(t, x), zs), dir);
            && f.deliveredEof && f.delivered == f0.delivered
            && (f.delivered == f.sent <==>
                  f0.second.hand + (BytesOf(t.conn, dir) + (f0.first.hand + f0.unread)) == [] && f.sent == f0.sent)
  {
    var t := NetAfter(Opening(now), xs);
    CutBegins(t, x, dir);
    OpeningSound(now);
    hide Reachable, AllSendable, Concrete, Can, Do, Fair, Sound, Conserved, SinceCut, Opening, FlowOf, Piped;
    var k := RunSound(Opening(now), Opened(now), xs);
    Disassembled(t, k, dir);
    PipedIsRaw(k, dir);
    RunSinceCut(Do(t, x), zs, dir, FlowOf(t, dir));
    CutMeans(FlowOf(t, dir), FlowOf(NetAfter(Do(t, x), zs), dir), RawOf(k, dir));
  }

  lemma CutMeans(f0: Flow, f: Flow, raw: Bytes)
    requires SinceCut(f0, f) && Conserved(f0, raw)
    ensures f.deliveredEof && f.delivered == f0.delivered
    ensures f.delivered == f.sent <==> f0.second.hand + (raw + (f0.first.hand + f0.unread)) == [] && f.sent == f0.sent
  {
    assert |f0.sent| == |f0.delivered| + |f0.second.hand + (raw + (f0.first.hand + f0.unread))|;
    assert |f0.sent| == |f.sent| ==> f0.sent == f.sent;
  }
}

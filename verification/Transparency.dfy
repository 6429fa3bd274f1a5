/**
 What the guard is for.  A tunnel whose visit begins while the receiving coroutine is
 not parked can deliver something else than was sent; with the guard it cannot.
 */
module Transparency {
  import opened Seqs
  import opened Codec
  import opened Framing
  import opened Messages
  import opened SendPath
  import opened Session
  import opened Wire
  import opened Pipe
  import opened Tunnel
  import HandOff
  import Progress
  import Unguarded

  // ---- Control messages alone, on the bytes -----------------------------------------

  /** Only control messages are on their way, and all of them fit a frame; nothing is said about their order. */
  ghost predicate Plain(k: Conn) {
    && PathInv(k.server.path)
    && k.up.raw == [] && k.down.raw == []
    && |k.up.stamps| == |k.up.frames| && |k.down.stamps| == |k.down.frames|
    && (forall m <- k.up.frames :: Sendable(m)) && (forall m <- k.down.frames :: Sendable(m))
    && (forall m <- Outbox(k.server.path) :: Sendable(m))
  }

  lemma PlainTakes(ch: Chan, x: Item, y: Item, now: Time)
    requires ch.raw == [] && |ch.stamps| == |ch.frames| && (forall m <- ch.frames :: Sendable(m)) && !x.Raw?
    requires CanTake(ch, x)
    ensures CanTakeBytes(ChanBytes(ch), x)
    ensures PutBytes(TakeBytes(ChanBytes(ch), x), y) == ChanBytes(PutIn(Take(ch, x), y, now))
  {
    TakeAgrees(ch, x);
    hide Sendable, CanTakeBytes, TakeBytes, PutBytes, ChanBytes, PutIn;
    PutAgrees(Take(ch, x), y, now);
  }

  lemma PlainPuts(ch: Chan, x: Item, y: Item, now: Time)
    requires ch.raw == [] && |ch.stamps| == |ch.frames| && (forall m <- ch.frames :: Sendable(m)) && !x.Raw?
    requires CanTake(ch, x) && !y.Raw? && (y.Message? ==> Sendable(y.m))
    ensures var ch' := PutIn(Take(ch, x), y, now);
            ch'.raw == [] && |ch'.stamps| == |ch'.frames| && (forall m <- ch'.frames :: Sendable(m))
  {
    hide Sendable;
  }

  /** What a quiet step hands over or writes fits a frame too, and the send path stays in order. */
  lemma PlainPath(k: Conn, e: Event)
    requires Plain(k) && Enabled(k, e) && Unguarded.Quiet(e)
    ensures PathInv(Apply(k, e).server.path) && forall m <- Outbox(Apply(k, e).server.path) :: Sendable(m)
  {
    var p := k.server.path;
    PathQuiet(k, e);
    BareSendable(Pong);
    ClosedInv(p);
    HandedInv(p, Receiver, Pong);
    if e.RunQueue? {
      RanInv(p);
    }
    if e.ServerSend? {
      SentInv(p);
    }
    hide PathInv, Outbox, Sendable, Enabled, Apply, Handed, Closed, Ran, Sent, CanSend, CallCount, NextMessage;
  }

  lemma PathQuiet(k: Conn, e: Event)
    requires Enabled(k, e) && Unguarded.Quiet(e)
    ensures var p, p' := k.server.path, Apply(k, e).server.path;
            || p' == p || p' == Closed(p) || p' == Handed(p, Receiver, Pong)
            || (e.RunQueue? && p.q.posted != [] && p' == Ran(p)) || (e.ServerSend? && CanSend(p) && p' == Sent(p))
  {
    hide Closed, Handed, Ran, Sent, CanSend;
  }

  lemma PlainGiven(k: Conn, e: Event, dir: Dir)
    requires Plain(k) && Enabled(k, e) && Unguarded.Quiet(e)
    ensures var y := Given(k.server, e, dir); !y.Raw? && (y.Message? ==> Sendable(y.m))
    ensures !Taken(e, dir).Raw? && CanTake(ChanOf(k, dir), Taken(e, dir))
  {
    BareSendable(VisitConfirmed);
    if e.ServerSend? {
      SentInv(k.server.path);
    }
    hide PathInv, Outbox, Sendable, CanSend, NextMessage;
  }

  lemma PlainLines(k: Conn)
    requires Plain(k)
    ensures forall dir :: var ch := ChanOf(k, dir);
                          ch.raw == [] && |ch.stamps| == |ch.frames| && (forall m <- ch.frames :: Sendable(m))
  {
    hide PathInv, Outbox, Sendable;
  }

  lemma PlainAgrees(k: Conn, e: Event)
    requires Plain(k) && Enabled(k, e) && Unguarded.Quiet(e)
    ensures ByteEnabled(Concrete(k), e) && ByteApply(Concrete(k), e) == Concrete(Apply(k, e))
  {
    PlainGiven(k, e, Up);
    PlainGiven(k, e, Down);
    PlainLines(k);
    assert ChanOf(k, Up) == k.up && ChanOf(k, Down) == k.down;
    assert e.ServerSend? ==> CanSend(k.server.path);
    hide Plain, ChanOf, Sendable, Ready, CanSend, ClientAfter, ServerAfter, Taken, Given, CanTake, CanTakeBytes, Take,
         TakeBytes, ChanBytes, PutIn, PutBytes, Unguarded.Quiet;
    PlainTakes(k.up, Taken(e, Up), Given(k.server, e, Up), k.now);
    PlainTakes(k.down, Taken(e, Down), Given(k.server, e, Down), k.now);
  }

  lemma PlainKept(k: Conn, e: Event)
    requires Plain(k) && Enabled(k, e) && Unguarded.Quiet(e)
    ensures Plain(Apply(k, e))
  {
    PlainGiven(k, e, Up);
    PlainGiven(k, e, Down);
    PlainLines(k);
    PlainPath(k, e);
    assert ChanOf(k, Up) == k.up && ChanOf(k, Down) == k.down;
    assert e.ServerSend? ==> CanSend(k.server.path);
    hide PathInv, Outbox, ChanOf, Sendable, Ready, CanSend, ClientAfter, ServerAfter, Taken, Given, CanTake, Take,
         PutIn, Unguarded.Quiet;
    PlainPuts(k.up, Taken(e, Up), Given(k.server, e, Up), k.now);
    PlainPuts(k.down, Taken(e, Down), Given(k.server, e, Down), k.now);
  }

  lemma PlainStep(k: Conn, e: Event)
    requires Plain(k) && Enabled(k, e) && Unguarded.Quiet(e)
    ensures ByteEnabled(Concrete(k), e) && Wellbehaved(Concrete(k), e)
    ensures ByteApply(Concrete(k), e) == Concrete(Apply(k, e)) && Plain(Apply(k, e))
  {
    assert !e.VisitStart? && !e.SendHello?;
    assert Wellbehaved(Concrete(k), e);
    hide Plain, Enabled, Apply, ByteEnabled, ByteApply, Concrete, Wellbehaved, Unguarded.Quiet;
    PlainAgrees(k, e);
    PlainKept(k, e);
  }

  lemma {:induction false} PlainRun(k: Conn, es: seq<Event>)
    requires Plain(k) && IsRun(k, es) && forall e <- es :: Unguarded.Quiet(e)
    ensures IsByteRun(Concrete(k), es) && ByteAfter(Concrete(k), es) == Concrete(After(k, es))
    decreases |es|
  {
    hide Plain, Enabled, Apply, ByteEnabled, ByteApply, Wellbehaved, Unguarded.Quiet;
    if es != [] {
      assert es[0] in es && forall e <- es[1..] :: e in es;
      PlainStep(k, es[0]);
      PlainRun(Apply(k, es[0]), es[1..]);
    }
  }

  // ---- The run that goes wrong -------------------------------------------------------

  /** The frame of a confirmation, which a local service can send like any other bytes. */
  function Decoy(): Bytes { Frame(Encode(VisitConfirmed)) }

  /** A byte that no confirmation frame starts with. */
  function Other(): SChar { if Decoy() != [] && Decoy()[0] == 0 then 1 else 0 }

  lemma DecoyFits()
    ensures 0 < |Decoy()| < PIPE_BUFFER && Sendable(VisitConfirmed)
  {
    BareSendable(VisitConfirmed);
    hide Encode, Sendable;
  }

  function Lure(): Bytes { Decoy() + [Other()] }

  lemma {:induction false} NetExtend(t: Net, xs: seq<Step>, x: Step)
    requires IsNetRun(t, xs) && Can(NetAfter(t, xs), x) && Fair(NetAfter(t, xs), x)
    ensures IsNetRun(t, xs + [x]) && NetAfter(t, xs + [x]) == Do(NetAfter(t, xs), x)
    decreases |xs|
  {
    hide Can, Do, Fair;
    if xs == [] {
      assert xs + [x] == [x] && [x][1..] == [];
    } else {
      NetExtend(Do(t, xs[0]), xs[1..], x);
      assert (xs + [x])[1..] == xs[1..] + [x];
    }
  }

  /** Both ends of a stranded tunnel as the sockets see it, and what the local service's side does next. */
  ghost predicate StrandedNet(t: Net) {
    && t.conn.client.alive && t.conn.client.pc.Confirmed?
    && t.conn.server.alive && t.conn.server.visit.Reading?
    && t.conn.up == [] && t.up == SILENCE
  }

  lemma ClientPipes(t: Net)
    requires StrandedNet(t)
    ensures Can(t, Control(ClientPipe)) && Fair(t, Control(ClientPipe))
    ensures Do(t, Control(ClientPipe)) == t.(conn := t.conn.(client := t.conn.client.(pc := Piping)))
  {
  }

  /** The local service sends, and the client's pipe puts it on the stream. */
  lemma Written(t: Net, bs: Bytes) returns (xs: seq<Step>)
    requires t.conn.client.alive && t.conn.client.pc.Piping? && t.conn.up == [] && t.up == SILENCE
    requires 0 < |bs| <= PIPE_BUFFER
    ensures IsNetRun(t, xs)
    ensures NetAfter(t, xs) == t.(conn := t.conn.(up := bs), up := SILENCE.(sent := bs))
  {
    var t1 := t.(up := SILENCE.(sent := bs, unread := bs));
    var t2 := t.(up := SILENCE.(sent := bs, first := Half(bs, false, false)));
    var t3 := t.(conn := t.conn.(up := bs), up := SILENCE.(sent := bs));
    assert [] + bs == bs && bs[|bs|..] == [] && bs[..|bs|] == bs;
    assert Can(t, Send(Up, bs)) && Do(t, Send(Up, bs)) == t1;
    assert Can(t1, Read1(Up, |bs|)) && Do(t1, Read1(Up, |bs|)) == t2;
    WriteAll(t2, bs);
    hide Can, Do;
    NetExtend(t, [], Send(Up, bs));
    NetExtend(t, [] + [Send(Up, bs)], Read1(Up, |bs|));
    NetExtend(t, [] + [Send(Up, bs)] + [Read1(Up, |bs|)], Write1(Up, |bs|));
    xs := [] + [Send(Up, bs)] + [Read1(Up, |bs|)] + [Write1(Up, |bs|)];
  }

  lemma WriteAll(t: Net, bs: Bytes)
    requires t.conn.client.alive && t.conn.client.pc.Piping? && t.conn.up == [] && bs != []
    requires t.up == SILENCE.(sent := bs, first := Half(bs, false, false))
    ensures Can(t, Write1(Up, |bs|))
    ensures Do(t, Write1(Up, |bs|)) == t.(conn := t.conn.(up := bs), up := SILENCE.(sent := bs))
  {
    assert bs[|bs|..] == [] && bs[..|bs|] == bs && [] + bs == bs;
    var e := PutRaw(Up, bs);
    assert ByteEnabled(t.conn, e) && ByteApply(t.conn, e) == t.conn.(up := bs);
  }

  /** The visit takes the decoy for its confirmation, and what is behind it is delivered. */
  lemma Deceived(t: Net) returns (xs: seq<Step>)
    requires t.conn.server.alive && t.conn.server.visit.Reading?
    requires t.conn.up == Lure() && t.up == SILENCE.(sent := Lure())
    ensures IsNetRun(t, xs)
    ensures NetAfter(t, xs).up.delivered == [Other()] && NetAfter(t, xs).up.sent == Lure()
  {
    DecoyFits();
    hide Sendable, Frame, Encode, Incoming, Receive, Decode;
    IncomingFrame(VisitConfirmed, [Other()]);
    var e := VisitRecv(VisitConfirmed);
    var c1 := t.conn.(server := VisitOn(t.conn.server, VisitConfirmed), up := [Other()]);
    assert ByteEnabled(t.conn, e) && ByteApply(t.conn, e) == c1;
    var t1 := t.(conn := c1);
    assert Can(t, Control(e)) && Do(t, Control(e)) == t1;
    NetExtend(t, [], Control(e));
    hide Can, Do, ByteEnabled, ByteApply, Decoy, Lure;
    var ys := OneByteArrives(t1, Other());
    Joined(t, [] + [Control(e)], ys);
    xs := [] + [Control(e)] + ys;
  }

  lemma OneByteArrives(t: Net, x: SChar) returns (xs: seq<Step>)
    requires t.conn.server.alive && t.conn.server.visit.Done? && t.conn.up == [x]
    requires t.up == SILENCE.(sent := t.up.sent)
    ensures IsNetRun(t, xs)
    ensures NetAfter(t, xs).up.delivered == [x] && NetAfter(t, xs).up.sent == t.up.sent
  {
    var e := TakeRaw(Up, [x]);
    assert [x][..1] == [x] && [x][1..] == [] && [] + [x] == [x];
    var c1 := t.conn.(up := []);
    assert ByteEnabled(t.conn, e) && ByteApply(t.conn, e) == c1;
    var t1 := t.(conn := c1, up := t.up.(second := Half([x], false, false)));
    assert Can(t, Read2(Up, 1)) && Do(t, Read2(Up, 1)) == t1;
    var t2 := t1.(up := t1.up.(delivered := [x], second := IDLE));
    assert Can(t1, Write2(Up, 1)) && Do(t1, Write2(Up, 1)) == t2;
    hide Can, Do, ByteEnabled, ByteApply;
    NetExtend(t, [], Read2(Up, 1));
    NetExtend(t, [] + [Read2(Up, 1)], Write2(Up, 1));
    xs := [] + [Read2(Up, 1)] + [Write2(Up, 1)];
  }

  lemma NotAPrefix()
    ensures !([Other()] <= Lure())
  {
    DecoyFits();
    hide Frame, Encode;
    assert Lure()[0] == Decoy()[0] != Other();
  }

  /** A stranded tunnel delivers what was not sent at that place. */
  lemma StrandedDeceives(t: Net) returns (xs: seq<Step>)
    requires StrandedNet(t)
    ensures IsNetRun(t, xs) && !(NetAfter(t, xs).up.delivered <= NetAfter(t, xs).up.sent)
  {
    DecoyFits();
    NotAPrefix();
    ClientPipes(t);
    var t1 := t.(conn := t.conn.(client := t.conn.client.(pc := Piping)));
    hide Can, Do, Fair, Decoy, Other;
    NetExtend(t, [], Control(ClientPipe));
    var ys := Written(t1, Lure());
    Joined(t, [] + [Control(ClientPipe)], ys);
    var t2 := NetAfter(t1, ys);
    var zs := Deceived(t2);
    Joined(t, [] + [Control(ClientPipe)] + ys, zs);
    xs := [] + [Control(ClientPipe)] + ys + zs;
  }

  // ---- The guard, exactly ----------------------------------------------------------------

  /** What is delivered is a prefix of what was sent, in both directions. */
  predicate Faithful(t: Net) { t.up.delivered <= t.up.sent && t.down.delivered <= t.down.sent }

  lemma SoundIsPlain(t: Net, k: Conn)
    requires Sound(t, k) && k.server.visit.NoVisit?
    ensures Plain(k)
  {
    hide Outbox, Conserved, Sendable;
    assert !k.client.visited && !k.server.visited;
    assert forall m <- k.down.frames :: m in DownLine(k);
    assert forall m <- Outbox(k.server.path) :: m in DownLine(k);
  }

  /** Without the guard: a continuation that delivers what was not sent. */
  lemma UnparkedDeceives(t: Net, k: Conn, v: Msg) returns (ys: seq<Step>)
    requires Sound(t, k) && t.up == SILENCE && Sendable(v)
    requires Can(t, Control(VisitStart(v))) && k.client.alive && !k.server.recv.Parked?
    ensures IsNetRun(Do(t, Control(VisitStart(v))), ys)
    ensures !Faithful(NetAfter(Do(t, Control(VisitStart(v))), ys))
  {
    var e := VisitStart(v);
    VisitBegins(t, k, v);
    var t1 := Do(t, Control(e));
    assert t1.up == SILENCE;
    hide *;
    var es := Unguarded.UnparkedStrands(k, v);
    PlainRun(Apply(k, e), es);
    assert forall f <- es :: !f.PutRaw? && !f.TakeRaw? by { forall f | f in es { QuietIsControl(f); } }
    HandOff.ControlsRun(t1, es);
    var t2 := NetAfter(t1, HandOff.Controls(es));
    IsStranded(After(Apply(k, e), es), t2);
    var zs := StrandedDeceives(t2);
    Joined(t1, HandOff.Controls(es), zs);
    ys := HandOff.Controls(es) + zs;
    NotFaithful(NetAfter(t1, ys));
  }

  lemma QuietIsControl(e: Event)
    requires Unguarded.Quiet(e)
    ensures !e.PutRaw? && !e.TakeRaw?
  {
  }

  lemma NotFaithful(t: Net)
    requires !(t.up.delivered <= t.up.sent)
    ensures !Faithful(t)
  {
  }

  lemma VisitStartsPlain(k: Conn, v: Msg)
    requires Plain(k) && k.server.visit.NoVisit? && k.server.alive && Sendable(v) && Enabled(k, VisitStart(v))
    ensures Apply(k, VisitStart(v)) == k.(server := Visiting(k.server, v, k.now))
    ensures Plain(Apply(k, VisitStart(v)))
  {
    HandedInv(k.server.path, Visitor, v);
    hide PathInv, Outbox, Sendable, Handed, CallCount;
    assert Apply(k, VisitStart(v)) == k.(server := Visiting(k.server, v, k.now));
    hide Apply, Enabled;
  }

  lemma VisitStartsOnBytes(t: Net, k: Conn, v: Msg)
    requires t.conn == Concrete(k) && Can(t, Control(VisitStart(v)))
    ensures Enabled(k, VisitStart(v)) && k.server.visit.NoVisit? && k.server.alive
    ensures Do(t, Control(VisitStart(v))) == t.(conn := Concrete(k.(server := Visiting(k.server, v, k.now))))
  {
    hide Handed, CallCount, ChanBytes, Visiting;
  }

  /** The visit begins on the bytes as it does on the messages. */
  lemma VisitBegins(t: Net, k: Conn, v: Msg)
    requires Sound(t, k) && Sendable(v) && Can(t, Control(VisitStart(v)))
    ensures var e := VisitStart(v);
            && Enabled(k, e) && Progress.Reachable(k) && Plain(Apply(k, e))
            && Do(t, Control(e)) == t.(conn := Concrete(Apply(k, e)))
  {
    SoundMeans(t, k);
    hide *;
    VisitStartsOnBytes(t, k, v);
    SoundIsPlain(t, k);
    VisitStartsPlain(k, v);
  }

  lemma SoundMeans(t: Net, k: Conn)
    requires Sound(t, k)
    ensures Progress.Reachable(k) && t.conn == Concrete(k)
  {
    hide Progress.Reachable, AllSendable, Conserved, Concrete;
  }

  lemma IsStranded(k: Conn, t: Net)
    requires Unguarded.Stranded(k) && t.conn == Concrete(k) && t.up == SILENCE
    ensures StrandedNet(t)
  {
    assert FrameBytes([]) == [];
  }

  /**
   The guard, exactly: in every state of every run in which the client is up, a visit can
   begin and nothing was sent towards the visitor yet, the receiving coroutine is parked if
   and only if the tunnel stays transparent in every continuation after the visit began.
   */
  lemma TransparentExactlyWhenParked(now: Time, xs: seq<Step>, v: Msg)
    requires IsNetRun(Opening(now), xs) && Sendable(v)
    requires var t := NetAfter(Opening(now), xs);
             Can(t, Control(VisitStart(v))) && t.conn.client.alive && t.up == SILENCE
    ensures var t := NetAfter(Opening(now), xs);
            t.conn.server.recv.Parked? <==>
              forall ys :: IsNetRun(Do(t, Control(VisitStart(v))), ys) ==>
                             Faithful(NetAfter(Do(t, Control(VisitStart(v))), ys))
  {
    OpeningSound(now);
    var k := RunSound(Opening(now), Opened(now), xs);
    var t := NetAfter(Opening(now), xs);
    var x := Control(VisitStart(v));
    SoundMeans(t, k);
    assert k.client == t.conn.client && k.server == t.conn.server;
    if t.conn.server.recv.Parked? {
      assert Fair(t, x);
      hide Can, Do, Fair, Sendable, Sound, Opening, Concrete, Faithful;
      forall ys | IsNetRun(Do(t, x), ys) ensures Faithful(NetAfter(Do(t, x), ys)) {
        NetExtend(Opening(now), xs, x);
        Joined(Opening(now), xs + [x], ys);
        FaithfulRun(now, xs + [x] + ys);
      }
    } else {
      hide Can, Do, Fair, Sendable, Sound, Opening, Concrete, Faithful;
      var ys := UnparkedDeceives(t, k, v);
    }
  }

  lemma FaithfulRun(now: Time, xs: seq<Step>)
    requires IsNetRun(Opening(now), xs)
    ensures Faithful(NetAfter(Opening(now), xs))
  {
    Transparent(now, xs, Up);
    Transparent(now, xs, Down);
    hide IsNetRun, NetAfter, Opening;
  }

  // ---- A worker is not always parked -----------------------------------------------------

  /** The client's first ping has just been read. */
  lemma Pinged(now: Time, hello: Msg) returns (es: seq<Event>, k: Conn)
    requires hello.WorkerHello? && Sendable(hello)
    ensures HandOff.Fine(now, es, k)
    ensures k.client.alive && k.server.alive && k.server.recv.Providing? && k.server.visit.NoVisit?
  {
    es := HandOff.Greets(now, hello);
    hide Sendable, HandOff.Fine, Start, Handed, Ran, CallCount;
    var c := Client(true, Receiving, false, false, Some(now + PING_AFTER));
    var s0 := Server(true, Parked, NoVisit, false, false, false, Some(now + IDLE_LIMIT), Start());
    var k0 := Conn(now, c, s0, EMPTY_CHAN, EMPTY_CHAN);
    assert Start().q.posted != [] by { SenderWaits(); }
    var k1 := k0.(server := s0.(path := Ran(Start())));
    HandOff.OneMore(now, es, k0, RunQueue, k1);
    es := es + [RunQueue];
    var k2 := k1.(now := now + PING_AFTER);
    HandOff.OneMore(now, es, k1, Tick(PING_AFTER), k2);
    es := es + [Tick(PING_AFTER)];
    es, k := PingAnswered(now, es, k2);
  }

  lemma SenderWaits()
    ensures Start().q.posted != []
  {
  }

  lemma PingAnswered(now: Time, es0: seq<Event>, k0: Conn) returns (es: seq<Event>, k: Conn)
    requires HandOff.Fine(now, es0, k0)
    requires k0.client.alive && PingDue(k0.client, k0.now) && k0.up == EMPTY_CHAN
    requires k0.server.alive && k0.server.recv.Parked? && k0.server.visit.NoVisit?
    ensures HandOff.Fine(now, es, k)
    ensures k.client.alive && k.server.alive && k.server.recv.Providing? && k.server.visit.NoVisit?
  {
    hide HandOff.Fine, Handed, CallCount;
    var k1 := Apply(k0, ClientPing);
    assert k1.up == Chan([Ping], [k0.now], []) && k1.server == k0.server;
    HandOff.OneMore(now, es0, k0, ClientPing, k1);
    k := Apply(k1, ServerRecv(Ping));
    HandOff.OneMore(now, es0 + [ClientPing], k1, ServerRecv(Ping), k);
    es := es0 + [ClientPing] + [ServerRecv(Ping)];
  }

  /**
   A run to a state in which a visit can begin and the receiving coroutine is not parked: both
   sides of the guard occur.
   */
  lemma UnparkedHappens(now: Time, hello: Msg, v: Msg) returns (xs: seq<Step>)
    requires hello.WorkerHello? && Sendable(hello) && v.VisitTcpShare?
    ensures IsNetRun(Opening(now), xs)
    ensures var t := NetAfter(Opening(now), xs);
            Can(t, Control(VisitStart(v))) && t.conn.client.alive && t.up == SILENCE && !t.conn.server.recv.Parked?
  {
    var es, k := Pinged(now, hello);
    HandOff.FineRuns(now, es, k);
    hide *;
    RunsAreByteRuns(now, es);
    OpeningIsQuiet(now);
    HandOff.ControlsRun(Opening(now), es);
    xs := HandOff.Controls(es);
    VisitIsPossible(NetAfter(Opening(now), xs), k, v);
  }

  lemma OpeningIsQuiet(now: Time)
    ensures Opening(now).conn == ByteOpened(now) && Opening(now).up == SILENCE
  {
  }

  lemma VisitIsPossible(t: Net, k: Conn, v: Msg)
    requires t.conn == Concrete(k) && v.VisitTcpShare?
    requires k.client.alive && k.server.alive && k.server.recv.Providing? && k.server.visit.NoVisit?
    ensures Can(t, Control(VisitStart(v))) && t.conn.client.alive && !t.conn.server.recv.Parked?
  {
    hide ChanBytes;
  }
}

/**
 A connection that does what it is for: a worker greets, is visited, confirms, and
 both ends hand their sockets to pipes; and then any bytes can be carried.
 */
module HandOff {
  import opened Seqs
  import opened Framing
  import opened Messages
  import opened SendPath
  import opened Session
  import opened Wire
  import opened Tunnel
  import opened Pipe

  /** The send path once a visit message alone was handed over and taken. */
  lemma AnnouncementTaken(v: Msg) returns (p: Path)
    ensures var h := Handed(Start(), Visitor, v);
            h.q.posted != [] && Ran(h).q.posted != [] && p == Ran(Ran(h)) && CallCount(Start()) == 0
    ensures Served(p, 0) && CanSend(Closed(p)) && NextMessage(Closed(p)) == v
  {
    var h := Handed(Start(), Visitor, v);
    assert |h.q.posted| == 2;
    assert Ran(h).q.q == [Sender] && |Ran(h).q.posted| == 1;
    p := Ran(Ran(h));
  }

  function Visited(recv: RecvPc, visit: VisitPc, confirmed: bool, ddl: Option<Time>, p: Path): Server {
    Server(true, recv, visit, true, confirmed, false, ddl, p)
  }

  ghost predicate Fine(now: Time, es: seq<Event>, k: Conn) {
    && IsRun(Opened(now), es) && OrderlyRun(Opened(now), es) && After(Opened(now), es) == k
    && forall e <- es :: Fits(e) && !e.PutRaw? && !e.TakeRaw?
  }

  lemma OneMore(now: Time, es: seq<Event>, k: Conn, e: Event, k': Conn)
    requires Fine(now, es, k) && Enabled(k, e) && Apply(k, e) == k' && Orderly(k, e) && Fits(e) && !e.PutRaw? &&
              !e.TakeRaw?
    ensures Fine(now, es + [e], k')
  {
    hide Enabled, Apply, Orderly, Fits;
    Extend(Opened(now), es, e);
  }

  lemma Greets(now: Time, hello: Msg) returns (es: seq<Event>)
    requires hello.WorkerHello? && Sendable(hello)
    ensures Fine(now, es, Conn(now, Client(true, Receiving, false, false, Some(now + PING_AFTER)),
                               Server(true, Parked, NoVisit, false, false, false, Some(now + IDLE_LIMIT), Start()),
                               EMPTY_CHAN, EMPTY_CHAN))
  {
    hide Sendable, Fine, Start;
    var c := Client(true, Receiving, false, false, Some(now + PING_AFTER));
    assert Fine(now, [], Opened(now)) by { NoSteps(now); }
    var k1 := Conn(now, c, NEW_SERVER, Chan([hello], [now], []), EMPTY_CHAN);
    OneMore(now, [], Opened(now), SendHello(hello), k1);
    var k2 := Conn(now, c, Server(true, Parked, NoVisit, false, false, false, Some(now + IDLE_LIMIT), Start()),
                   EMPTY_CHAN, EMPTY_CHAN);
    OneMore(now, [] + [SendHello(hello)], k1, Accept(hello), k2);
    es := [] + [SendHello(hello)] + [Accept(hello)];
  }

  lemma NoSteps(now: Time)
    ensures Fine(now, [], Opened(now))
  {
  }

  lemma Begins(now: Time, hello: Msg, v: Msg) returns (es: seq<Event>)
    requires hello.WorkerHello? && Sendable(hello) && v.VisitTcpShare? && Sendable(v)
    ensures Fine(now, es, Conn(now, Client(true, Receiving, false, false, Some(now + PING_AFTER)),
                               Visited(Ended, Announcing(CallCount(Start())), false, Some(now + VISIT_LIMIT),
                                       Handed(Start(), Visitor, v)),
                               EMPTY_CHAN, EMPTY_CHAN))
  {
    es := Greets(now, hello);
    hide Sendable, Fine, Start, Handed, CallCount;
    var c := Client(true, Receiving, false, false, Some(now + PING_AFTER));
    var k0 := Conn(now, c, Server(true, Parked, NoVisit, false, false, false, Some(now + IDLE_LIMIT), Start()),
                   EMPTY_CHAN, EMPTY_CHAN);
    var h := Handed(Start(), Visitor, v);
    var k1 := k0.(server := Visited(Ended, Announcing(CallCount(Start())), false, Some(now + VISIT_LIMIT), h));
    OneMore(now, es, k0, VisitStart(v), k1);
    es := es + [VisitStart(v)];
  }

  lemma Announces(now: Time, hello: Msg, v: Msg) returns (es: seq<Event>, p: Path)
    requires hello.WorkerHello? && Sendable(hello) && v.VisitTcpShare? && Sendable(v)
    ensures Fine(now, es, Conn(now, Client(true, Receiving, false, false, Some(now + PING_AFTER)),
                               Visited(Ended, Announcing(0), false, Some(now + VISIT_LIMIT), p), EMPTY_CHAN,
                                 EMPTY_CHAN))
    ensures Served(p, 0) && CanSend(Closed(p)) && NextMessage(Closed(p)) == v
  {
    p := AnnouncementTaken(v);
    es := Begins(now, hello, v);
    hide Sendable, Fine, Start, Handed, Ran, Closed, Served, CanSend, NextMessage, CallCount;
    var c := Client(true, Receiving, false, false, Some(now + PING_AFTER));
    var h := Handed(Start(), Visitor, v);
    var k1 := Conn(now, c, Visited(Ended, Announcing(0), false, Some(now + VISIT_LIMIT), h), EMPTY_CHAN, EMPTY_CHAN);
    var k2 := k1.(server := Visited(Ended, Announcing(0), false, Some(now + VISIT_LIMIT), Ran(h)));
    OneMore(now, es, k1, RunQueue, k2);
    var k3 := k1.(server := Visited(Ended, Announcing(0), false, Some(now + VISIT_LIMIT), p));
    OneMore(now, es + [RunQueue], k2, RunQueue, k3);
    es := es + [RunQueue] + [RunQueue];
  }

  lemma Confirms(now: Time, hello: Msg, v: Msg) returns (es: seq<Event>, p: Path)
    requires hello.WorkerHello? && Sendable(hello) && v.VisitTcpShare? && Sendable(v)
    ensures Fine(now, es, Conn(now, Client(true, Confirmed, true, false, None),
                               Visited(Ended, Reading, false, Some(now + VISIT_LIMIT), p),
                               Chan([VisitConfirmed], [now], []), EMPTY_CHAN))
  {
    es, p := Announces(now, hello, v);
    hide Sendable, Fine, Start, Closed, Sent, Served, CanSend, NextMessage;
    var c := Client(true, Receiving, false, false, Some(now + PING_AFTER));
    var s0 := Visited(Ended, Announcing(0), false, Some(now + VISIT_LIMIT), p);
    var s1 := Visited(Ended, Reading, false, Some(now + VISIT_LIMIT), Closed(p));
    var s2 := Visited(Ended, Reading, false, Some(now + VISIT_LIMIT), Sent(Closed(p)));
    var k0 := Conn(now, c, s0, EMPTY_CHAN, EMPTY_CHAN);
    var k1 := Conn(now, c, s1, EMPTY_CHAN, EMPTY_CHAN);
    var k2 := Conn(now, c, s2, EMPTY_CHAN, Chan([v], [now], []));
    OneMore(now, es, k0, VisitAnnounced, k1);
    es := es + [VisitAnnounced];
    OneMore(now, es, k1, ServerSend, k2);
    es := es + [ServerSend];
    OneMore(now, es, k2, ClientRecv(v),
            Conn(now, Client(true, Confirmed, true, false, None), s2, Chan([VisitConfirmed], [now], []), EMPTY_CHAN));
    es := es + [ClientRecv(v)];
    p := Sent(Closed(p));
  }

  /** An orderly run in which both ends hand their sockets over, with nothing left on the lines. */
  lemma HandsOver(now: Time, hello: Msg, v: Msg) returns (es: seq<Event>, k: Conn)
    requires hello.WorkerHello? && Sendable(hello) && v.VisitTcpShare? && Sendable(v)
    ensures Fine(now, es, k)
    ensures k.client.alive && k.client.pc.Piping? && k.server.alive && k.server.visit.Done?
    ensures k.up == EMPTY_CHAN && k.down == EMPTY_CHAN
  {
    var p: Path;
    es, p := Confirms(now, hello, v);
    hide Sendable, Fine;
    var s0 := Visited(Ended, Reading, false, Some(now + VISIT_LIMIT), p);
    var k0 := Conn(now, Client(true, Confirmed, true, false, None), s0, Chan([VisitConfirmed], [now], []), EMPTY_CHAN);
    var k1 := k0.(client := Client(true, Piping, true, false, None));
    OneMore(now, es, k0, ClientPipe, k1);
    k := Conn(now, Client(true, Piping, true, false, None), Visited(Ended, Done, true, None, p), EMPTY_CHAN,
      EMPTY_CHAN);
    OneMore(now, es + [ClientPipe], k1, VisitRecv(VisitConfirmed), k);
    es := es + [ClientPipe] + [VisitRecv(VisitConfirmed)];
  }

  // ---- The same in the whole tunnel --------------------------------------------

  function Controls(es: seq<Event>): seq<Step> {
    if es == [] then [] else [Control(es[0])] + Controls(es[1..])
  }

  lemma {:induction false} ControlsRun(t: Net, es: seq<Event>)
    requires IsByteRun(t.conn, es) && forall e <- es :: !e.PutRaw? && !e.TakeRaw?
    ensures IsNetRun(t, Controls(es)) && NetAfter(t, Controls(es)) == t.(conn := ByteAfter(t.conn, es))
    ensures forall x <- Controls(es) :: x.Control?
    decreases |es|
  {
    hide ByteEnabled, ByteApply, Wellbehaved;
    if es != [] {
      assert es[0] in es && forall e <- es[1..] :: e in es;
      var x := Control(es[0]);
      assert Can(t, x) && Do(t, x) == t.(conn := ByteApply(t.conn, es[0]));
      ControlsRun(Do(t, x), es[1..]);
      assert Controls(es)[1..] == Controls(es[1..]);
    }
  }

  /** A run to a tunnel with a pipe at both sides, through which nothing was sent yet. */
  lemma Connects(now: Time, hello: Msg, v: Msg) returns (xs: seq<Step>)
    requires hello.WorkerHello? && Sendable(hello) && v.VisitTcpShare? && Sendable(v)
    ensures IsNetRun(Opening(now), xs) && forall x <- xs :: x.Control?
    ensures var t := NetAfter(Opening(now), xs);
            Piped(t.conn, true) && Piped(t.conn, false) && t.up == SILENCE && t.down == SILENCE
  {
    var es, k := HandsOver(now, hello, v);
    FineRuns(now, es, k);
    RunsAreByteRuns(now, es);
    ControlsRun(Opening(now), es);
    hide Fine, IsNetRun, NetAfter, ByteAfter, IsByteRun, IsRun, After, OrderlyRun, Sendable;
    xs := Controls(es);
  }

  lemma FineRuns(now: Time, es: seq<Event>, k: Conn)
    requires Fine(now, es, k)
    ensures IsRun(Opened(now), es) && OrderlyRun(Opened(now), es) && After(Opened(now), es) == k
    ensures (forall e <- es :: Fits(e)) && forall e <- es :: !e.PutRaw? && !e.TakeRaw?
  {
  }

  lemma Sends(t: Net, dir: Dir, bs: Bytes)
    requires FlowOf(t, dir) == SILENCE
    ensures var xs := [Send(dir, bs), SendEof(dir)];
            && IsNetRun(t, xs) && NetAfter(t, xs).conn == t.conn
            && FlowOf(NetAfter(t, xs), dir) == SILENCE.(sent := bs, unread := bs, sourceEof := true)
  {
    var t1 := Do(t, Send(dir, bs));
    assert FlowOf(t1, dir) == SILENCE.(sent := [] + bs, unread := [] + bs) && [] + bs == bs && t1.conn == t.conn;
    var t2 := Do(t1, SendEof(dir));
    assert IsNetRun(t2, []) && [SendEof(dir)][1..] == [];
    assert IsNetRun(t1, [SendEof(dir)]) && NetAfter(t1, [SendEof(dir)]) == t2;
    assert [Send(dir, bs), SendEof(dir)][1..] == [SendEof(dir)];
  }

  /**
   Whatever bytes an end sends, in either direction there is a run that delivers exactly them,
   and the end of file.
   */
  lemma AnyBytesArrive(now: Time, hello: Msg, v: Msg, dir: Dir, bs: Bytes) returns (xs: seq<Step>)
    requires hello.WorkerHello? && Sendable(hello) && v.VisitTcpShare? && Sendable(v)
    ensures IsNetRun(Opening(now), xs)
    ensures var f := FlowOf(NetAfter(Opening(now), xs), dir); f.sent == f.delivered == bs && f.deliveredEof
  {
    xs := Connects(now, hello, v);
    var t := NetAfter(Opening(now), xs);
    assert FlowOf(t, dir) == SILENCE;
    hide *;
    var send := [Send(dir, bs), SendEof(dir)];
    Sends(t, dir, bs);
    Joined(Opening(now), xs, send);
    SentIsReady(t, NetAfter(t, send), dir, bs);
    var ys := EverythingArrives(now, xs + send, dir);
    Joined(Opening(now), xs + send, ys);
    xs := xs + send + ys;
  }

  lemma SentIsReady(t: Net, t': Net, dir: Dir, bs: Bytes)
    requires Piped(t.conn, true) && Piped(t.conn, false) && t'.conn == t.conn
    requires FlowOf(t', dir) == SILENCE.(sent := bs, unread := bs, sourceEof := true)
    ensures Unbroken(FlowOf(t', dir)) && FlowOf(t', dir).sent == bs && Piped(t'.conn, true) && Piped(t'.conn, false)
  {
  }

  lemma SentBeforeLoss(t: Net, dir: Dir, bs: Bytes)
    requires Piped(t.conn, true) && Piped(t.conn, false) && FlowOf(t, dir) == SILENCE
    ensures IsNetRun(t, [Send(dir, bs)])
    ensures var t' := NetAfter(t, [Send(dir, bs)]);
            && Piped(t'.conn, true) && Piped(t'.conn, false) && t'.conn == t.conn
            && FlowOf(t', dir) == SILENCE.(sent := bs, unread := bs)
  {
    var t1 := Do(t, Send(dir, bs));
    assert FlowOf(t1, dir) == SILENCE.(sent := [] + bs, unread := [] + bs) && [] + bs == bs && t1.conn == t.conn;
    assert IsNetRun(t1, []) && [Send(dir, bs)][1..] == [];
  }

  lemma CanBeLost(t: Net, dir: Dir, bs: Bytes)
    requires Piped(t.conn, true) && Piped(t.conn, false) && FlowOf(t, dir) == SILENCE.(sent := bs, unread := bs)
    ensures Can(t, Lose1(dir, true)) && LosesSource(Lose1(dir, true), dir) && Piped(t.conn, AtServer(dir, false))
    ensures !FlowOf(t, dir).first.ended && !FlowOf(t, dir).second.ended
    ensures FlowOf(t, dir).first.hand + FlowOf(t, dir).unread == bs && FlowOf(t, dir).sent == bs
  {
  }

  /** And whatever bytes an end sends, a reset of that end can have the other see an end of file and none of them. */
  lemma AnyBytesCanBeLost(now: Time, hello: Msg, v: Msg, dir: Dir, bs: Bytes) returns (xs: seq<Step>)
    requires hello.WorkerHello? && Sendable(hello) && v.VisitTcpShare? && Sendable(v)
    ensures IsNetRun(Opening(now), xs)
    ensures var f := FlowOf(NetAfter(Opening(now), xs), dir);
            f.sent == bs && f.delivered == [] && f.deliveredEof && !f.second.broken
  {
    xs := Connects(now, hello, v);
    var t := NetAfter(Opening(now), xs);
    assert FlowOf(t, dir) == SILENCE;
    SentBeforeLoss(t, dir, bs);
    var t1 := NetAfter(t, [Send(dir, bs)]);
    hide *;
    CanBeLost(t1, dir, bs);
    Joined(Opening(now), xs, [Send(dir, bs)]);
    xs := xs + [Send(dir, bs)];
    var x := Lose1(dir, true);
    var ys := ResetLooksLikeEof(now, xs, dir, x);
    EofBehindLoss(now, xs, dir, x, ys);
    StepRun(t1, x, ys);
    Joined(Opening(now), xs, [x] + ys);
    var f := FlowOf(NetAfter(Do(t1, x), ys), dir);
    assert |f.delivered| == |f.sent| - |bs|;
    xs := xs + ([x] + ys);
  }

  lemma StepRun(t: Net, x: Step, xs: seq<Step>)
    requires Can(t, x) && Fair(t, x) && IsNetRun(Do(t, x), xs)
    ensures IsNetRun(t, [x] + xs) && NetAfter(t, [x] + xs) == NetAfter(Do(t, x), xs)
  {
    hide Can, Fair, Do;
    assert ([x] + xs)[1..] == xs;
  }

  /** The first half puts what it can on the stream. */
  lemma OnTheStream(t: Net, dir: Dir, bs: Bytes) returns (xs: seq<Step>)
    requires Piped(t.conn, true) && Piped(t.conn, false) && FlowOf(t, dir) == SILENCE.(sent := bs, unread := bs)
    requires 0 < |bs| <= PIPE_BUFFER && BytesOf(t.conn, dir) == []
    ensures IsNetRun(t, xs)
    ensures var t' := NetAfter(t, xs);
            && BytesOf(t'.conn, dir) == bs && FlowOf(t', dir) == SILENCE.(sent := bs)
            && Piped(t'.conn, true) && Piped(t'.conn, false)
  {
    var x, y := Read1(dir, |bs|), Write1(dir, |bs|);
    var t1 := Do(t, x);
    assert bs[|bs|..] == [] && bs[..|bs|] == bs;
    assert FlowOf(t1, dir) == SILENCE.(sent := bs, first := Half(bs, false, false)) && t1.conn == t.conn;
    assert Can(t1, y) by { CanWrite1(t1, dir, bs); }
    Write1Effect(t1, dir, |bs|);
    PutLength(t1.conn, dir, bs);
    assert [] + bs == bs;
    var t2 := Do(t1, y);
    assert BytesOf(t2.conn, dir) == bs && FlowOf(t2, dir) == SILENCE.(sent := bs);
    hide Can, Do, ByteEnabled, ByteApply, BytesOf, FlowOf;
    StepRun(t1, y, []);
    StepRun(t, x, [y] + []);
    xs := [x] + ([y] + []);
  }

  lemma CanWrite1(t: Net, dir: Dir, bs: Bytes)
    requires Piped(t.conn, true) && Piped(t.conn, false) && bs != []
    requires FlowOf(t, dir) == SILENCE.(sent := bs, first := Half(bs, false, false))
    ensures Can(t, Write1(dir, |bs|))
  {
  }

  lemma CanBeCut(t: Net, dir: Dir, bs: Bytes)
    requires Piped(t.conn, true) && Piped(t.conn, false) && FlowOf(t, dir) == SILENCE.(sent := bs)
    ensures var x := Lose2(dir, true);
            && Can(t, x) && LosesTunnel(x, dir) && Fair(t, x) && !FlowOf(t, dir).second.ended
            && FlowOf(t, dir).sent == bs && FlowOf(Do(t, x), dir).sent == bs && FlowOf(t, dir).delivered == []
  {
  }

  /** And bytes that are on the stream already are lost behind an end of file when the tunnel is. */
  lemma BytesOnTheStreamCanBeLost(now: Time, hello: Msg, v: Msg, dir: Dir, bs: Bytes) returns (xs: seq<Step>)
    requires hello.WorkerHello? && Sendable(hello) && v.VisitTcpShare? && Sendable(v) && 0 < |bs| <= PIPE_BUFFER
    ensures IsNetRun(Opening(now), xs)
    ensures var t := NetAfter(Opening(now), xs);
            && FlowOf(t, dir).sent == bs == BytesOf(t.conn, dir)
            && FlowOf(t, dir).delivered == [] && FlowOf(t, dir).deliveredEof
  {
    xs := Connects(now, hello, v);
    var t := NetAfter(Opening(now), xs);
    assert FlowOf(t, dir) == SILENCE;
    NothingOnTheStream(t, now, xs, dir);
    SentBeforeLoss(t, dir, bs);
    var t1 := NetAfter(t, [Send(dir, bs)]);
    hide *;
    Joined(Opening(now), xs, [Send(dir, bs)]);
    xs := xs + [Send(dir, bs)];
    var ys := OnTheStream(t1, dir, bs);
    Joined(Opening(now), xs, ys);
    xs := xs + ys;
    var t2 := NetAfter(t1, ys);
    var x := Lose2(dir, true);
    CanBeCut(t2, dir, bs);
    NoRun(Do(t2, x));
    LostTunnelLooksLikeEof(now, xs, dir, x, []);
    CutKeepsStream(t2, dir);
    StepRun(t2, x, []);
    Joined(Opening(now), xs, [x] + []);
    xs := xs + ([x] + []);
  }

  lemma NoRun(t: Net)
    ensures IsNetRun(t, []) && NetAfter(t, []) == t
  {
  }

  lemma CutKeepsStream(t: Net, dir: Dir)
    requires Can(t, Lose2(dir, true))
    ensures BytesOf(Do(t, Lose2(dir, true)).conn, dir) == BytesOf(t.conn, dir)
  {
  }

  /** Where nothing was sent, nothing is on the stream. */
  lemma NothingOnTheStream(t: Net, now: Time, xs: seq<Step>, dir: Dir)
    requires IsNetRun(Opening(now), xs) && t == NetAfter(Opening(now), xs)
    requires Piped(t.conn, true) && Piped(t.conn, false) && FlowOf(t, dir) == SILENCE
    ensures BytesOf(t.conn, dir) == []
  {
    EofMeansAll(now, xs, dir);
    assert Piped(t.conn, AtServer(dir, false));
    hide Piped;
  }
}

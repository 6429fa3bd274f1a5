/**
 The workers at the two ends of a tunnel connection as the program updates them in
 place, proved against the reactions of the session; and the two loops that read
 the stream up to the switch to raw bytes, on real bytes in arbitrary fragments.
 */
module Workers {
  import opened Seqs
  import opened Framing
  import opened Messages
  import W = WaitQueue
  import opened SendPath
  import opened Session
  import opened Wire

  class Clock {
    var now: Time

    method Read() returns (t: Time)
      modifies this
      ensures t == now && old(now) <= now
    {
      t :| now <= t;
      now := t;
    }
  }

  // ---- The client worker ---------------------------------------------------

  const CLIENT_EXPECTS := [TVisitTcpShare, TPong]

  function Untimed(c: Client): Client { c.(timer := None) }

  lemma ReceiveShrinks(b: Bytes)
    ensures Receive(b).0.Payload? ==> |Receive(b).1| < |b|
  {
  }

  /**
   What the client's receiving loop makes of a stream: what becomes of the client,
   leaving its ping timer aside, what is left unread, and what it sends.
   */
  function Conversed(c: Client, b: Bytes): (Client, Bytes, seq<Msg>)
    decreases |b|
  {
    ReceiveShrinks(b);
    if c.visited then (c, b, [])
    else
      match Receive(b)
      case (Payload(p), rest) => (
        match Decode(p, CLIENT_EXPECTS)
        case None => (ClientStopped(c), rest, [])
        case Some(m) =>
          if m.Pong? then Conversed(c, rest)
          else var (c', out) := ClientOn(c, m, 0); (Untimed(c'), rest, out))
      case (_, rest) => (ClientStopped(c), rest, [])
  }

  /** Frames whose payloads all decode to `skipped`, and a last one that decodes to a message of type `final`. */
  ghost predicate LeadsTo(ps: seq<Bytes>, ts: seq<MsgType>, skipped: Msg, final: MsgType) {
    && ps != [] && (forall p <- ps :: |p| <= MAX_PAYLOAD)
    && (forall i :: 0 <= i < |ps| - 1 ==> Decode(ps[i], ts) == Some(skipped))
    && var d := Decode(ps[|ps| - 1], ts); d.Some? && TypeOf(d.value) == final
  }

  /** The stream starts with such frames; `rest` is what is behind them. */
  ghost predicate ComesTo(b: Bytes, rest: Bytes, ts: seq<MsgType>, skipped: Msg, final: MsgType) {
    exists ps :: LeadsTo(ps, ts, skipped, final) && b == Frames(ps) + rest
  }

  /** On the stream to a client: pongs and then one visit. */
  ghost predicate VisitFirst(b: Bytes, rest: Bytes) { ComesTo(b, rest, CLIENT_EXPECTS, Pong, TVisitTcpShare) }

  /** The client gives its socket away only behind pongs and one visit, byte for byte. */
  lemma {:induction false} OnlyAVisitHandsOver(c: Client, b: Bytes) returns (ps: seq<Bytes>)
    requires !c.visited && Conversed(c, b).0.visited
    ensures LeadsTo(ps, CLIENT_EXPECTS, Pong, TVisitTcpShare) && b == Frames(ps) + Conversed(c, b).1
    decreases |b|
  {
    hide Frame, Decode, Receive;
    ReceiveShrinks(b);
    ReceiveOnlyFrames(b);
    var p, rest := Receive(b).0.bytes, Receive(b).1;
    if Decode(p, CLIENT_EXPECTS).value.Pong? {
      var more := OnlyAVisitHandsOver(c, rest);
      ps := [p] + more;
      assert ps[1..] == more;
    } else {
      ps := [p];
      assert Frames(ps) == Frame(p) + Frames([]);
    }
  }

  /** And it does so behind any such frames, with what follows them left unread. */
  lemma {:induction false} VisitHandsOver(c: Client, ps: seq<Bytes>, rest: Bytes)
    requires !c.visited && LeadsTo(ps, CLIENT_EXPECTS, Pong, TVisitTcpShare)
    ensures Conversed(c, Frames(ps) + rest).0.visited && Conversed(c, Frames(ps) + rest).1 == rest
    decreases |ps|
  {
    hide Frame, Decode, Receive;
    var p, more := ps[0], ps[1..];
    var tail := Frames(more) + rest;
    assert p in ps && Frames(ps) + rest == Frame(p) + tail;
    ReceiveFrame(p, tail);
    if |ps| == 1 {
      assert tail == rest;
    } else {
      assert more[|more| - 1] == ps[|ps| - 1] && forall q <- more :: q in ps;
      VisitHandsOver(c, more, rest);
    }
  }

  /** A conversation ends in one of two ways: with a visit, which is confirmed, or with the client stopped. */
  lemma {:induction false} TwoEndings(c: Client, b: Bytes)
    requires !c.visited
    ensures var (c', _, out) := Conversed(c, b);
            if c'.visited then c' == c.(pc := Confirmed, visited := true, timer := None) && out == [VisitConfirmed]
            else c' == c.(alive := false, stopping := true) && out == []
    decreases |b|
  {
    hide Decode, Receive;
    ReceiveShrinks(b);
    if Receive(b).0.Payload? {
      DecodesExpected(Receive(b).0.bytes, CLIENT_EXPECTS);
      if Decode(Receive(b).0.bytes, CLIENT_EXPECTS) == Some(Pong) {
        TwoEndings(c, Receive(b).1);
      }
    }
  }

  /**
   Whatever comes on the stream: the client hands its socket over exactly if the stream
   starts with pongs and one visit, and then has confirmed it and left the rest; in every
   other case it is stopped, and has sent nothing.
   */
  lemma EndsExactly(c: Client, b: Bytes)
    requires !c.visited
    ensures var (c', rest, out) := Conversed(c, b);
            && (c'.visited <==> exists tail :: VisitFirst(b, tail))
            && (c'.visited ==>
                  VisitFirst(b, rest) && out == [VisitConfirmed] && c'.alive == c.alive && c'.pc.Confirmed?)
            && (!c'.visited ==> !c'.alive && c'.stopping && out == [])
  {
    TwoEndings(c, b);
    hide Conversed;
    if Conversed(c, b).0.visited {
      VisitWasFirst(c, b);
    }
    if tail :| VisitFirst(b, tail) {
      hide LeadsTo, Frames;
      var ps :| LeadsTo(ps, CLIENT_EXPECTS, Pong, TVisitTcpShare) && b == Frames(ps) + tail;
      VisitHandsOver(c, ps, tail);
    }
  }

  lemma VisitWasFirst(c: Client, b: Bytes)
    requires !c.visited && Conversed(c, b).0.visited
    ensures VisitFirst(b, Conversed(c, b).1)
  {
    hide Conversed, Frames, LeadsTo;
    var ps := OnlyAVisitHandsOver(c, b);
  }

  class ClientWorker {
    var alive: bool
    var pc: ClientPc
    var visited: bool
    var stopping: bool
    var timer: Option<Time>

    ghost function View(): Client
      reads this
    {
      Client(alive, pc, visited, stopping, timer)
    }

    ghost predicate Valid()
      reads this
    {
      alive <==> !stopping
    }

    constructor ()
      ensures Valid() && View() == NEW_CLIENT
    {
      alive, pc, visited, stopping, timer := true, Fresh, false, false, None;
    }

    method TryStop()
      modifies this
      ensures Valid() && View() == ClientStopped(old(View())) && !alive && stopping
    {
      stopping := true;
      alive := false;
    }

    method HandleError()
      requires Valid()
      modifies this
      ensures Valid() && View() == ClientStopped(old(View()))
    {
      if !stopping {
        TryStop();
      }
    }

    method HandleVisit() returns (out: seq<Msg>)
      modifies this
      ensures View() == old(View()).(pc := Confirmed, visited := true, timer := None) && out == [VisitConfirmed]
    {
      visited := true;
      timer := None;
      pc := Confirmed;
      out := [VisitConfirmed];
    }

    /** One turn of the receiving loop, up to the next read. */
    method OnMessage(m: Msg, clock: Clock) returns (out: seq<Msg>)
      requires Valid() && !visited
      modifies this, clock
      ensures Valid() && clock.now >= old(clock.now)
      ensures (View(), out) == ClientOn(old(View()), m, clock.now)
      ensures m.VisitTcpShare? ==> visited && alive == old(alive) && timer.None? && out == [VisitConfirmed]
      ensures m.Pong? ==> !visited && alive == old(alive) && timer == Some(clock.now + PING_AFTER) && out == []
      ensures !m.VisitTcpShare? && !m.Pong? ==> !visited && !alive && stopping && out == []
    {
      out := [];
      match m
      case VisitTcpShare(_, _) =>
        out := HandleVisit();
      case Pong =>
        var now := clock.Read();
        timer := Some(now + PING_AFTER);
      case _ =>
        HandleError();
    }

    /** The ping actor wakes up, for whatever reason: it sends a ping only if one is due. */
    method PingActorWakes(clock: Clock) returns (out: seq<Msg>)
      modifies this, clock
      ensures out == if PingDue(old(View()), clock.now) then [Ping] else []
      ensures View() == if PingDue(old(View()), clock.now) then old(View()).(timer := None) else old(View())
      ensures out == [Ping] <==>
              old(timer).Some? && old(timer).value <= clock.now && !old(stopping) && !old(visited)
    {
      out := [];
      var now := clock.Read();
      if stopping || visited {
        return;
      }
      if timer.Some? && timer.value <= now {
        timer := None;
        out := [Ping];
      }
    }

    /** The ping actor wakes up once, at some time, and sends what it has to send. */
    method LetPing(s: Socket, clock: Clock) returns (pings: nat)
      requires Valid() && !visited && alive
      modifies this, s`outgoing, clock
      ensures Valid() && Untimed(View()) == Untimed(old(View()))
      ensures s.outgoing == old(s.outgoing) + FrameBytes(Pings(pings))
    {
      hide Frame, Encode;
      var out := PingActorWakes(clock);
      pings := |out|;
      if out != [] {
        SendMsg(s, Encode(Ping));
        assert Pings(1) == [Ping] && FrameBytes([Ping]) == Frame(Encode(Ping)) + FrameBytes([]);
      }
    }

    /**
     The whole receiving coroutine, with the ping actor waking up at any time between two
     reads: pings may go out behind the hello, but none behind the confirmation.
     */
    method SendAndRecvMsgs(s: Socket, clock: Clock, hello: Msg) returns (pings: nat)
      requires Valid() && View() == NEW_CLIENT
      modifies this, s, clock
      ensures var (c, rest, out) := Conversed(NEW_CLIENT.(pc := Receiving), old(s.incoming));
              && Untimed(View()) == Untimed(c) && s.incoming == rest
              && s.outgoing == old(s.outgoing) + Frame(Encode(hello)) + FrameBytes(Pings(pings) + out)
      ensures visited <==> exists tail :: VisitFirst(old(s.incoming), tail)
      ensures visited ==>
                && VisitFirst(old(s.incoming), s.incoming) && alive && pc.Confirmed?
                && s.outgoing == old(s.outgoing) + Frame(Encode(hello)) + FrameBytes(Pings(pings) + [VisitConfirmed])
      ensures !visited ==>
                && !alive && stopping
                && s.outgoing == old(s.outgoing) + Frame(Encode(hello)) + FrameBytes(Pings(pings))
    {
      hide Frame, Encode, Decode, Receive, FrameBytes, VisitFirst;
      SendMsg(s, Encode(hello));
      pc := Receiving;
      pings := 0;
      var now := clock.Read();
      timer := Some(now + PING_AFTER);
      ghost var sent := s.outgoing;
      ghost var was := s.incoming;
      ghost var all := Conversed(NEW_CLIENT.(pc := Receiving), was);
      NoPings(sent);
      while alive && !visited
        invariant Valid()
        invariant alive && !visited ==>
                    && pc == Receiving && s.outgoing == sent + FrameBytes(Pings(pings))
                    && Conversed(NEW_CLIENT.(pc := Receiving), s.incoming) == all
        invariant !alive || visited ==>
                    && Untimed(View()) == Untimed(all.0) && s.incoming == all.1
                    && s.outgoing == sent + FrameBytes(Pings(pings) + all.2)
        decreases |s.incoming|, if alive && !visited then 1 else 0
      {
        var more := LetPing(s, clock);
        MorePings(sent, pings, more);
        pings := pings + more;
        NothingBehind(pings);
        ReceiveShrinks(s.incoming);
        assert Untimed(View()) == NEW_CLIENT.(pc := Receiving);
        var got := RecvMsg(s);
        if !got.Payload? {
          HandleError();
          break;
        }
        var m := Decode(got.bytes, CLIENT_EXPECTS);
        if m.None? {
          HandleError();
          break;
        }
        var out := OnMessage(m.value, clock);
        if out != [] {
          SendMsg(s, Encode(out[0]));
          OneBehind(sent, pings, out[0]);
        }
      }
      hide *;
      EndsExactly(NEW_CLIENT.(pc := Receiving), was);
      NothingBehind(pings);
    }
  }

  lemma NoPings(sent: Bytes)
    ensures sent + FrameBytes(Pings(0)) == sent
  {
    assert Pings(0) == [];
  }

  lemma MorePings(sent: Bytes, n: nat, m: nat)
    ensures (sent + FrameBytes(Pings(n))) + FrameBytes(Pings(m)) == sent + FrameBytes(Pings(n + m))
  {
    hide Frame, Encode;
    assert Pings(n + m) == Pings(n) + Pings(m);
    FrameBytesConcat(Pings(n), Pings(m));
  }

  lemma NothingBehind(n: nat)
    ensures Pings(n) + [] == Pings(n)
  {
  }

  lemma OneBehind(sent: Bytes, n: nat, m: Msg)
    ensures (sent + FrameBytes(Pings(n))) + Frame(Encode(m)) == sent + FrameBytes(Pings(n) + [m])
  {
    hide Frame, Encode;
    FrameBytesAppend(Pings(n), m);
  }

  lemma {:induction false} FrameBytesConcat(a: seq<Msg>, b: seq<Msg>)
    ensures FrameBytes(a + b) == FrameBytes(a) + FrameBytes(b)
  {
    hide Frame, Encode;
    if a == [] {
      assert a + b == b;
    } else {
      FrameBytesConcat(a[1..], b);
      assert (a + b)[1..] == a[1..] + b;
    }
  }

  function Pings(n: nat): seq<Msg> { seq(n, _ => Ping) }

  function Pongs(n: nat): seq<Msg> { seq(n, _ => Pong) }

  lemma FrameBytesOf(m: Msg, ms: seq<Msg>, tail: Bytes)
    ensures FrameBytes([m] + ms) + tail == Frame(Encode(m)) + (FrameBytes(ms) + tail)
  {
    hide Frame, Encode;
    assert ([m] + ms)[1..] == ms;
  }

  /** What receiving and decoding make of a stream that starts with a message that fits. */
  lemma DecodesFirst(m: Msg, rest: Bytes, ts: seq<MsgType>)
    requires Sendable(m)
    ensures Receive(Frame(Encode(m)) + rest) == (Payload(Encode(m)), rest)
    ensures Decode(Encode(m), ts) == if TypeOf(m) in ts then Some(m) else None
  {
    hide Frame, Receive, WireText, TypeOf;
    assert |Encode(m)| <= MAX_PAYLOAD;
    ReceiveFrame(Encode(m), rest);
    DecodeEncode(m, ts);
  }

  /** Behind any number of pongs, the visit is answered and everything after it is left on the stream. */
  lemma {:induction false} VisitLeavesTheRest(c: Client, n: nat, v: Msg, tail: Bytes)
    requires !c.visited && v.VisitTcpShare? && Sendable(v)
    ensures Conversed(c, FrameBytes(Pongs(n) + [v]) + tail) ==
            (c.(pc := Confirmed, visited := true, timer := None), tail, [VisitConfirmed])
  {
    hide Frame, Encode, Decode, Receive, Sendable;
    assert CLIENT_EXPECTS[0] == TVisitTcpShare && CLIENT_EXPECTS[1] == TPong;
    if n == 0 {
      FrameBytesOf(v, [], tail);
      assert Pongs(0) + [v] == [v] + [];
      assert FrameBytes([]) + tail == tail;
      DecodesFirst(v, tail, CLIENT_EXPECTS);
    } else {
      var ms := Pongs(n - 1) + [v];
      assert Pongs(n) + [v] == [Pong] + ms;
      FrameBytesOf(Pong, ms, tail);
      BareSendable(Pong);
      DecodesFirst(Pong, FrameBytes(ms) + tail, CLIENT_EXPECTS);
      VisitLeavesTheRest(c, n - 1, v, tail);
    }
  }

  // ---- The server worker ---------------------------------------------------

  const VISIT_EXPECTS := [TPing, TVisitConfirmed]

  /**
   What the visit's retry loop makes of a stream: what becomes of the worker, what
   is left unread, and how many messages it read.
   */
  function Awaited(s: Server, b: Bytes): (Server, Bytes, nat)
    decreases |b|
  {
    ReceiveShrinks(b);
    match Receive(b)
    case (Payload(p), rest) => (
      match Decode(p, VISIT_EXPECTS)
      case None => (s.(visit := Failed), rest, 1)
      case Some(m) =>
        if m.Ping? then var (s', left, n) := Awaited(s, rest); (s', left, n + 1)
        else (VisitOn(s, m), rest, 1))
    case (_, rest) => (s.(visit := Failed), rest, 0)
  }

  /** On the stream to a visit: pings and then the confirmation. */
  ghost predicate ConfirmationFirst(b: Bytes, rest: Bytes) { ComesTo(b, rest, VISIT_EXPECTS, Ping, TVisitConfirmed) }

  /** The visit returns the socket only behind pings and one confirmation, byte for byte. */
  lemma {:induction false} OnlyAConfirmationEnds(s: Server, b: Bytes) returns (ps: seq<Bytes>)
    requires !s.visit.Done? && Awaited(s, b).0.visit.Done?
    ensures LeadsTo(ps, VISIT_EXPECTS, Ping, TVisitConfirmed)
    ensures b == Frames(ps) + Awaited(s, b).1 && |ps| == Awaited(s, b).2
    decreases |b|
  {
    hide Frame, Decode, Receive;
    ReceiveShrinks(b);
    ReceiveOnlyFrames(b);
    var p, rest := Receive(b).0.bytes, Receive(b).1;
    if Decode(p, VISIT_EXPECTS) == Some(Ping) {
      var more := OnlyAConfirmationEnds(s, rest);
      ps := [p] + more;
      assert ps[1..] == more;
    } else {
      ps := [p];
      assert Frames(ps) == Frame(p) + Frames([]);
    }
  }

  /** And it does so behind any such frames, with what follows them left unread. */
  lemma {:induction false} ConfirmationEnds(s: Server, ps: seq<Bytes>, rest: Bytes)
    requires LeadsTo(ps, VISIT_EXPECTS, Ping, TVisitConfirmed)
    ensures Awaited(s, Frames(ps) + rest).0.visit.Done? && Awaited(s, Frames(ps) + rest).1 == rest
    decreases |ps|
  {
    hide Frame, Decode, Receive;
    var p, more := ps[0], ps[1..];
    var tail := Frames(more) + rest;
    assert p in ps && Frames(ps) + rest == Frame(p) + tail;
    ReceiveFrame(p, tail);
    if |ps| == 1 {
      assert tail == rest;
    } else {
      assert more[|more| - 1] == ps[|ps| - 1] && forall q <- more :: q in ps;
      ConfirmationEnds(s, more, rest);
    }
  }

  /** The retry loop ends in one of two ways: the visit is done and confirmed, or it failed. */
  lemma {:induction false} DoneOrFailed(s: Server, b: Bytes)
    ensures var s' := Awaited(s, b).0;
            s' == (if s'.visit.Done? then s.(confirmed := true, ddl := None, visit := Done) else s.(visit := Failed))
    decreases |b|
  {
    hide Decode, Receive;
    ReceiveShrinks(b);
    if Receive(b).0.Payload? && Decode(Receive(b).0.bytes, VISIT_EXPECTS) == Some(Ping) {
      DoneOrFailed(s, Receive(b).1);
    }
  }

  lemma ConfirmationWasFirst(s: Server, b: Bytes)
    requires !s.visit.Done? && Awaited(s, b).0.visit.Done?
    ensures ConfirmationFirst(b, Awaited(s, b).1)
  {
    hide Awaited, Frames, LeadsTo;
    var ps := OnlyAConfirmationEnds(s, b);
  }

  /**
   Whatever comes on the stream: the visit succeeds exactly if the stream starts with
   pings and the confirmation, and has left the rest; in every other case it fails.
   */
  lemma SucceedsExactly(s: Server, b: Bytes)
    requires !s.visit.Done?
    ensures var (s', rest, _) := Awaited(s, b);
            && (s'.visit.Done? <==> exists tail :: ConfirmationFirst(b, tail))
            && (s'.visit.Done? ==> ConfirmationFirst(b, rest) && s'.confirmed && s'.ddl.None?)
            && (!s'.visit.Done? ==> s'.visit.Failed? && s'.confirmed == s.confirmed)
  {
    DoneOrFailed(s, b);
    hide Awaited;
    if Awaited(s, b).0.visit.Done? {
      ConfirmationWasFirst(s, b);
    }
    if tail :| ConfirmationFirst(b, tail) {
      hide LeadsTo, Frames;
      var ps :| LeadsTo(ps, VISIT_EXPECTS, Ping, TVisitConfirmed) && b == Frames(ps) + tail;
      ConfirmationEnds(s, ps, tail);
    }
  }

  class ServerWorker {
    var alive: bool
    var recv: RecvPc
    var visit: VisitPc
    var visited: bool
    var confirmed: bool
    var stopping: bool
    var ddl: Option<Time>
    const toSend: W.Queue<Who, Msg>
    var wired: nat
    var senderAlive: bool
    /** How many messages were handed over to the sender so far. */
    var handed: nat

    ghost function View(): Server
      reads this, toSend
    {
      Server(alive, recv, visit, visited, confirmed, stopping, ddl, Path(toSend.View(), wired, senderAlive))
    }

    ghost predicate Valid()
      reads this, toSend
    {
      toSend.Valid() && handed == CallCount(View().path) && (alive && !visited ==> !stopping)
    }

    constructor ()
      ensures Valid() && View() == NEW_SERVER && fresh(toSend)
    {
      alive, recv, visit := true, NotAccepted, NoVisit;
      visited, confirmed, stopping, ddl := false, false, false, None;
      wired, senderAlive, handed := 0, true, 0;
      toSend := new W.Queue();
      new;
      toSend.Wait(Sender);
    }

    method Run(clock: Clock)
      requires Valid() && recv.NotAccepted?
      modifies this, clock
      ensures Valid() && View() == Accepted(old(View()), clock.now)
    {
      var now := clock.Read();
      recv, ddl := Parked, Some(now + IDLE_LIMIT);
    }

    method TryStop()
      requires Valid()
      modifies this, toSend
      ensures Valid() && View() == Session.TryStop(old(View())) && stopping
      ensures !visited ==> !alive && ddl.None? && toSend.closed
      ensures visited ==> alive == old(alive) && ddl == old(ddl) && toSend.View() == old(toSend.View())
    {
      stopping := true;
      if visited {
        return;
      }
      toSend.CloseQueue();
      alive := false;
      ddl := None;
    }

    method HandleError()
      requires Valid()
      modifies this, toSend
      ensures Valid()
      ensures View() == if old(visited) || old(stopping) then old(View()) else Session.TryStop(old(View()))
      ensures !visited && !old(stopping) ==> stopping && !alive && toSend.closed
    {
      if visited {
        return;
      }
      if !stopping {
        TryStop();
      }
    }

    /** The receiving coroutine gets a message: a pong for a ping goes to the queue, anything else ends it. */
    method OnMessage(m: Msg)
      requires Valid() && recv.Parked?
      modifies this, toSend
      ensures Valid() && View() == ServerOn(old(View()), m)
      ensures if m.Ping? then recv.Providing? && alive == old(alive) else recv.Ended?
      ensures !m.Ping? && !visited && !old(stopping) ==> stopping && !alive && toSend.closed
    {
      if m.Ping? {
        recv := Providing(handed);
        HandOver(Receiver, Pong);
      } else {
        recv := Ended;
        HandleError();
      }
    }

    method HandOver(who: Who, m: Msg)
      requires Valid()
      modifies `handed, toSend
      ensures Valid() && View() == old(View()).(path := Handed(old(View()).path, who, m))
    {
      toSend.Provide(who, m);
      handed := handed + 1;
    }

    /** The pong was taken by the sender: the receiving coroutine goes on to its next read. */
    method OnAnswered(clock: Clock)
      requires Valid() && recv.Providing? && Served(View().path, recv.call)
      modifies this, clock
      ensures Valid() && View() == Answered(old(View()), clock.now)
    {
      var now := clock.Read();
      recv, ddl := Parked, Some(now + IDLE_LIMIT);
    }

    /** The sender has got a message: it writes it, and waits for the next one. */
    method SendNext(s: Socket)
      requires Valid() && CanSend(View().path)
      modifies this, toSend, s`outgoing
      ensures Valid() && View() == old(View()).(path := Sent(old(View()).path))
      ensures s.outgoing == old(s.outgoing) + Frame(Encode(NextMessage(old(View()).path)))
    {
      SendMsg(s, Encode(toSend.values[wired]));
      wired := wired + 1;
      toSend.Wait(Sender);
    }

    /**
     The sender's wait was aborted, or its write failed: it ends, and stops the worker unless
     that is visited or stopping already.
     */
    method OnAborted()
      requires Valid() && (SenderAborted(View().path) || WriteFails(View().path, alive))
      modifies this, toSend
      ensures Valid() && View() == SenderStops(old(View())) && !senderAlive
      ensures !visited && !old(stopping) ==> stopping && !alive && toSend.closed
    {
      senderAlive := false;
      if !visited && !stopping {
        TryStop();
      }
    }

    method BeginVisit(v: Msg, clock: Clock)
      requires Valid() && visit.NoVisit?
      modifies this, toSend, clock
      ensures Valid() && View() == Visiting(old(View()), v, clock.now)
    {
      hide Handed, W.PostProvide;
      visited := true;
      if recv.Parked? {
        recv := Ended;
      }
      var now := clock.Read();
      ddl := Some(now + VISIT_LIMIT);
      visit := Announcing(handed);
      HandOver(Visitor, v);
    }

    method OnAnnounced()
      requires Valid() && visit.Announcing? && Served(View().path, visit.call)
      modifies this, toSend
      ensures Valid() && View() == Announced(old(View())) && visit.Reading? && toSend.closed
    {
      toSend.CloseQueue();
      visit := Reading;
    }

    /** The retry loop of the visit: pings are skipped until the confirmation arrives. */
    method ReadPastPings(s: Socket) returns (count: nat)
      requires Valid() && visited && visit.Reading?
      modifies this, s
      ensures Valid() && (View(), s.incoming, count) == Awaited(old(View()), old(s.incoming))
    {
      hide Decode, Receive;
      count := 0;
      while true
        invariant Valid() && View() == old(View())
        invariant var (w, left, n) := Awaited(old(View()), s.incoming);
                  Awaited(old(View()), old(s.incoming)) == (w, left, n + count)
        decreases |s.incoming|
      {
        ReceiveShrinks(s.incoming);
        var got := RecvMsg(s);
        if !got.Payload? {
          visit := Failed;
          return;
        }
        count := count + 1;
        var m := Decode(got.bytes, VISIT_EXPECTS);
        if m.None? {
          visit := Failed;
          return;
        }
        if !m.value.Ping? {
          OnVisitMessage(m.value);
          return;
        }
      }
    }

    /** Whatever comes on the stream, the visit is confirmed or fails. */
    method AwaitConfirmation(s: Socket) returns (count: nat)
      requires Valid() && visited && visit.Reading?
      modifies this, s
      ensures Valid() && (View(), s.incoming, count) == Awaited(old(View()), old(s.incoming))
      ensures visit.Done? <==> exists tail :: ConfirmationFirst(old(s.incoming), tail)
      ensures visit.Done? ==> ConfirmationFirst(old(s.incoming), s.incoming) && confirmed && ddl.None?
      ensures !visit.Done? ==> visit.Failed? && confirmed == old(confirmed)
    {
      hide Awaited, ConfirmationFirst;
      SucceedsExactly(View(), s.incoming);
      count := ReadPastPings(s);
    }

    method OnVisitMessage(m: Msg)
      requires Valid() && visited && !m.Ping?
      modifies this
      ensures Valid() && View() == VisitOn(old(View()), m)
      ensures if m.VisitConfirmed? then visit.Done? && confirmed && ddl.None? else visit.Failed?
    {
      if m.VisitConfirmed? {
        confirmed, ddl, visit := true, None, Done;
      } else {
        visit := Failed;
      }
    }

    /** The deadline actor wakes up, for whatever reason: it stops the worker only when the deadline has passed. */
    method DeadlineActorWakes(clock: Clock) returns (ended: bool)
      requires Valid()
      modifies this, toSend, clock
      ensures Valid() && ended == (old(stopping) || old(confirmed) || DeadlinePassed(old(View()), clock.now))
      ensures View() == if DeadlinePassed(old(View()), clock.now) then Session.TryStop(old(View())) else old(View())
      ensures ended <==>
              old(stopping) || old(confirmed) || (old(ddl).Some? && old(ddl).value <= clock.now)
      ensures ended && !old(stopping) && !old(confirmed) && !visited ==> stopping && !alive && toSend.closed
    {
      var now := clock.Read();
      if stopping || confirmed {
        return true;
      }
      if ddl.Some? && ddl.value <= now {
        TryStop();
        return true;
      }
      return false;
    }
  }

  /** Behind any number of pings, the confirmation ends the visit and everything after it is left on the stream. */
  lemma {:induction false} ConfirmationLeavesTheRest(s: Server, n: nat, tail: Bytes)
    ensures Awaited(s, FrameBytes(Pings(n) + [VisitConfirmed]) + tail) == (VisitOn(s, VisitConfirmed), tail, n + 1)
  {
    hide Frame, Encode, Decode, Receive, Sendable;
    assert VISIT_EXPECTS[0] == TPing && VISIT_EXPECTS[1] == TVisitConfirmed;
    if n == 0 {
      BareSendable(VisitConfirmed);
      FrameBytesOf(VisitConfirmed, [], tail);
      assert Pings(0) + [VisitConfirmed] == [VisitConfirmed] + [];
      assert FrameBytes([]) + tail == tail;
      DecodesFirst(VisitConfirmed, tail, VISIT_EXPECTS);
    } else {
      var ms := Pings(n - 1) + [VisitConfirmed];
      assert Pings(n) + [VisitConfirmed] == [Ping] + ms;
      FrameBytesOf(Ping, ms, tail);
      BareSendable(Ping);
      DecodesFirst(Ping, FrameBytes(ms) + tail, VISIT_EXPECTS);
      ConfirmationLeavesTheRest(s, n - 1, tail);
    }
  }

  // ---- The switch, in a run --------------------------------------------------

  lemma ConfirmOnLine(k: Conn) returns (n: nat)
    requires Inv(k) && k.server.visit.Reading? && k.client.visited
    ensures n <= 1 && k.up.frames == Pings(n) + [VisitConfirmed]
  {
    hide PathInv, Outbox;
    n := PingsInFlight(k);
    assert UpLine(k) == k.up.frames && |k.up.frames| == n + 1;
  }

  lemma VisitEnds(k: Conn)
    requires Inv(k) && k.server.visit.Reading? && k.client.visited
    ensures Awaited(k.server, ChanBytes(k.up)) == (VisitOn(k.server, VisitConfirmed), k.up.raw, |k.up.frames|)
    ensures 1 <= |k.up.frames| <= 2
  {
    hide Inv, Awaited, FrameBytes;
    var n := ConfirmOnLine(k);
    ConfirmationLeavesTheRest(k.server, n, k.up.raw);
  }

  /**
   In every orderly run, once the client has confirmed a visit that is still reading,
   the retry loop reads at most two messages, succeeds, and leaves exactly the raw
   bytes the client has put behind its confirmation.
   */
  lemma VisitEndsAtTheRawBytes(now: Time, es: seq<Event>)
    requires IsRun(Opened(now), es) && OrderlyRun(Opened(now), es)
    ensures var k := After(Opened(now), es);
            k.server.visit.Reading? && k.client.visited ==>
              && Awaited(k.server, Concrete(k).up) == (VisitOn(k.server, VisitConfirmed), k.up.raw, |k.up.frames|)
              && 1 <= |k.up.frames| <= 2
  {
    OpenedInv(now);
    hide Inv, Awaited, FrameBytes, Opened, IsRun, After, OrderlyRun;
    RunInv(Opened(now), es);
    var k := After(Opened(now), es);
    if k.server.visit.Reading? && k.client.visited {
      VisitEnds(k);
    }
  }

  lemma VisitOnLine(k: Conn) returns (n: nat, v: Msg)
    requires Inv(k) && k.server.visited && !k.client.visited && Outbox(k.server.path) == []
    ensures n <= 1 && k.down.frames == Pongs(n) + [v] == DownLine(k) && v.VisitTcpShare? && k.down.raw == []
  {
    hide PathInv, Outbox;
    n := PongsInFlight(k);
    assert DownLine(k) == k.down.frames && |k.down.frames| == n + 1;
    v := k.down.frames[n];
  }

  lemma ClientConfirms(k: Conn)
    requires Inv(k) && k.server.visited && !k.client.visited && Outbox(k.server.path) == [] && AllSendable(k)
    ensures 1 <= |k.down.frames| <= 2
    ensures Conversed(k.client, ChanBytes(k.down)) ==
            (k.client.(pc := Confirmed, visited := true, timer := None), [], [VisitConfirmed])
  {
    hide Inv, Conversed, FrameBytes, Outbox;
    var n, v := VisitOnLine(k);
    assert v in DownLine(k) by { assert DownLine(k)[n] == v; }
    hide Sendable, DownLine;
    VisitLeavesTheRest(k.client, n, v, []);
  }

  /**
   In every orderly run, once the announcement of a visit is on the wire, the client's
   loop reads at most two messages, confirms, and leaves nothing unread: the server
   has put no raw byte behind its announcement.
   */
  lemma ClientConfirmsAtOnce(now: Time, es: seq<Event>)
    requires IsRun(Opened(now), es) && OrderlyRun(Opened(now), es) && forall e <- es :: Fits(e)
    requires var k := After(Opened(now), es); k.server.visited && !k.client.visited && Outbox(k.server.path) == []
    ensures var k := After(Opened(now), es);
            && 1 <= |k.down.frames| <= 2
            && Conversed(k.client, Concrete(k).down) ==
               (k.client.(pc := Confirmed, visited := true, timer := None), [], [VisitConfirmed])
  {
    OpenedInv(now);
    hide Inv, Conversed, FrameBytes, Opened, IsRun, After, OrderlyRun, Outbox, AllSendable, Fits;
    RunInv(Opened(now), es);
    RunsAreByteRuns(now, es);
    ClientConfirms(After(Opened(now), es));
  }
}

/**
 Why a visit has to find the receiving coroutine parked.  If it does not, that
 coroutine goes on reading, can take the confirmation that the visit is waiting for,
 and the visit then takes the first bytes of the tunnel for it.
 */
module Unguarded {
  import opened Seqs
  import opened Codec
  import opened Framing
  import opened Messages
  import opened SendPath
  import opened Session
  import opened Progress

  // ---- Parked: the receiving coroutine never reads again --------------------------

  lemma {:induction false} EndedReadsNothing(k: Conn, es: seq<Event>)
    requires k.server.recv.Ended? && IsRun(k, es)
    ensures forall e <- es :: !e.ServerRecv?
    decreases |es|
  {
    hide Enabled, Apply;
    if es != [] {
      EndedStays(k, es[0]);
      EndedReadsNothing(Apply(k, es[0]), es[1..]);
      assert forall e <- es :: e == es[0] || e in es[1..];
    }
  }

  lemma EndedStays(k: Conn, e: Event)
    requires k.server.recv.Ended? && Enabled(k, e)
    ensures !e.ServerRecv? && Apply(k, e).server.recv.Ended?
  {
  }

  // ---- Not parked: a continuation in which it takes the confirmation ---------------

  /** The queue and the sender work until everything handed over is on the wire. */
  lemma {:induction false} Drain(k: Conn) returns (es: seq<Event>, p: Path, ch: Chan)
    requires k.server.alive && PathInv(k.server.path) && |k.down.stamps| == |k.down.frames|
    requires !k.server.path.q.closed && k.server.path.q.abortedWaits == []
    ensures IsRun(k, es) && (forall e <- es :: e.RunQueue? || e.ServerSend?)
    ensures After(k, es) == k.(server := k.server.(path := p), down := ch)
    ensures PathInv(p) && Outbox(p) == [] && CallCount(p) == CallCount(k.server.path) == |p.q.served|
    ensures ch.frames == k.down.frames + Outbox(k.server.path) && ch.raw == k.down.raw && |ch.stamps| == |ch.frames|
    decreases 4 * (CallCount(k.server.path) - k.server.path.wired) + |k.server.path.q.posted|
  {
    var q := k.server.path;
    Bounds(q);
    if q.q.posted != [] {
      RanInv(q);
      RunAborts(q);
      RanShrinks(q);
      RunQueueEffect(k);
      hide PathInv, Outbox, CanSend, CallCount, Ran, Enabled, Apply;
      es, p, ch := Drain(Apply(k, RunQueue));
      es := Prepended(k, RunQueue, es);
    } else if CanSend(q) {
      SentInv(q);
      ServerSendEffect(k);
      SentQueue(q);
      Bounds(Sent(q));
      hide PathInv, Outbox, CanSend, NextMessage, CallCount, Sent, Enabled, Apply;
      Regroup(k.down.frames, Outbox(q));
      es, p, ch := Drain(Apply(k, ServerSend));
      es := Prepended(k, ServerSend, es);
    } else {
      RestingPath(q);
      es, p, ch := [], q, k.down;
      assert k == k.(server := k.server.(path := p), down := ch);
    }
  }

  lemma RunQueueEffect(k: Conn)
    requires k.server.path.q.posted != []
    ensures Enabled(k, RunQueue) && Apply(k, RunQueue) == k.(server := k.server.(path := Ran(k.server.path)))
  {
    hide Ran;
  }

  lemma ServerSendEffect(k: Conn)
    requires k.server.alive && CanSend(k.server.path)
    ensures Enabled(k, ServerSend)
    ensures Apply(k, ServerSend) ==
            k.(server := k.server.(path := Sent(k.server.path)),
               down := Chan(k.down.frames + [NextMessage(k.server.path)], k.down.stamps + [k.now], k.down.raw))
  {
    hide Sent, CanSend, NextMessage;
  }

  lemma SentQueue(p: Path)
    requires CanSend(p)
    ensures Sent(p).q.closed == p.q.closed && Sent(p).q.abortedWaits == p.q.abortedWaits
    ensures |Sent(p).q.posted| == |p.q.posted| + 1 && Sent(p).wired == p.wired + 1
  {
  }

  lemma Prepended(k: Conn, e: Event, es: seq<Event>) returns (fs: seq<Event>)
    requires Enabled(k, e) && IsRun(Apply(k, e), es)
    ensures fs == [e] + es && IsRun(k, fs) && After(k, fs) == After(Apply(k, e), es)
  {
    hide Enabled, Apply;
    fs := [e] + es;
    assert fs[1..] == es;
  }

  /** A worker that is answering a ping when the visit begins: its pong is on the way, and no ping behind another. */
  lemma WhenNotParked(k: Conn, v: Msg)
    requires Reachable(k) && k.client.alive && Enabled(k, VisitStart(v)) && !k.server.recv.Parked?
    ensures var s, p := k.server, k.server.path;
            && s.alive && s.recv.Providing? && s.recv.call + 1 == CallCount(p) && !s.visited && s.visit.NoVisit?
            && !s.confirmed && PathInv(p) && !p.q.closed && p.q.abortedWaits == []
    ensures k.client.pc.Receiving? && !k.client.visited
    ensures DownLine(k) == [] || DownLine(k) == [Pong]
    ensures k.up.frames == [] || k.up.frames == [Ping]
    ensures |k.up.stamps| == |k.up.frames| && |k.down.stamps| == |k.down.frames|
    ensures k.up.raw == [] && k.down.raw == [] && v.VisitTcpShare?
  {
    hide PathInv, Outbox;
    var n, m := PongsInFlight(k), PingsInFlight(k);
    assert |DownLine(k)| == n && |k.up.frames| == m && UpLine(k) == k.up.frames;
    assert n == 1 ==> DownLine(k) == [Pong];
    assert m == 1 ==> k.up.frames == [Ping];
  }

  lemma Announces(k: Conn) returns (es: seq<Event>, ddl: Option<Time>)
    requires k.server.alive && k.server.recv.Providing? && k.server.visit.Announcing?
    requires Served(k.server.path, k.server.recv.call) && Served(k.server.path, k.server.visit.call)
    ensures es == [ServerAnswered, VisitAnnounced] && IsRun(k, es)
    ensures After(k, es) ==
            k.(server := k.server.(recv := Parked, ddl := ddl, visit := Reading, path := Closed(k.server.path)))
  {
    hide Closed, Served;
    ddl := Some(k.now + IDLE_LIMIT);
    var k1 := Apply(k, ServerAnswered);
    var k2 := Apply(k1, VisitAnnounced);
    assert k2 == k.(server := k.server.(recv := Parked, ddl := ddl, visit := Reading, path := Closed(k.server.path)));
    hide Enabled, Apply;
    TwoSteps(k, ServerAnswered, VisitAnnounced);
    es := [ServerAnswered, VisitAnnounced];
  }

  lemma TwoSteps(k: Conn, e: Event, f: Event)
    requires Enabled(k, e) && Enabled(Apply(k, e), f)
    ensures IsRun(k, [e, f]) && After(k, [e, f]) == Apply(Apply(k, e), f)
  {
    hide Enabled, Apply;
    var k1 := Apply(k, e);
    assert [e, f][1..] == [f] && [f][1..] == [];
    assert IsRun(k1, [f]) && After(k1, [f]) == Apply(k1, f);
  }

  lemma OneStep(k: Conn, e: Event)
    requires Enabled(k, e)
    ensures IsRun(k, [e]) && After(k, [e]) == Apply(k, e)
  {
    hide Enabled, Apply;
    assert [e][1..] == [];
  }

  /** The client reads the announcement, behind a pong perhaps, and confirms. */
  lemma ClientConfirms(k: Conn, v: Msg) returns (es: seq<Event>, up: Chan)
    requires k.client.alive && k.client.pc.Receiving? && v.VisitTcpShare? && |k.down.stamps| == |k.down.frames|
    requires k.down.frames == [v] || k.down.frames == [Pong, v]
    requires k.down.raw == [] && |k.up.stamps| == |k.up.frames|
    ensures IsRun(k, es) && (forall e <- es :: e.ClientRecv?)
    ensures up == k.up.(frames := k.up.frames + [VisitConfirmed], stamps := up.stamps) && |up.stamps| == |up.frames|
    ensures After(k, es) ==
            k.(client := k.client.(pc := Confirmed, visited := true, timer := None), up := up, down := EMPTY_CHAN)
  {
    up := k.up.(frames := k.up.frames + [VisitConfirmed], stamps := k.up.stamps + [k.now]);
    if k.down.frames == [v] {
      VisitRead(k, v);
      OneStep(k, ClientRecv(v));
      es := [ClientRecv(v)];
    } else {
      PongReadFirst(k, v);
      VisitRead(Apply(k, ClientRecv(Pong)), v);
      TwoSteps(k, ClientRecv(Pong), ClientRecv(v));
      es := [ClientRecv(Pong), ClientRecv(v)];
    }
    hide Enabled, Apply, IsRun, After;
  }

  lemma PongReadFirst(k: Conn, v: Msg)
    requires k.client.alive && k.client.pc.Receiving? && |k.down.stamps| == 2 && k.down.frames == [Pong, v]
    ensures Enabled(k, ClientRecv(Pong))
    ensures Apply(k, ClientRecv(Pong)) ==
            k.(client := k.client.(timer := Some(k.now + PING_AFTER)),
               down := Chan([v], k.down.stamps[1..], k.down.raw))
  {
    assert [Pong, v][1..] == [v];
  }

  lemma VisitRead(k: Conn, v: Msg)
    requires k.client.alive && k.client.pc.Receiving? && v.VisitTcpShare?
    requires |k.down.stamps| == 1 && k.down.frames == [v] && k.down.raw == []
    ensures Enabled(k, ClientRecv(v))
    ensures Apply(k, ClientRecv(v)) ==
            k.(client := k.client.(pc := Confirmed, visited := true, timer := None),
               up := k.up.(frames := k.up.frames + [VisitConfirmed], stamps := k.up.stamps + [k.now]),
                 down := EMPTY_CHAN)
  {
    assert [v][1..] == [] && k.down.stamps[1..] == [];
  }

  /** The visit skips a ping, if there is one, and the receiving coroutine takes the confirmation. */
  lemma WrongReader(k: Conn) returns (es: seq<Event>)
    requires k.server.alive && k.server.recv.Parked? && k.server.visit.Reading? && k.server.visited
    requires k.up.frames == [VisitConfirmed] || k.up.frames == [Ping, VisitConfirmed]
    requires |k.up.stamps| == |k.up.frames| && k.up.raw == []
    ensures IsRun(k, es) && ServerRecv(VisitConfirmed) in es && (forall e <- es :: e.ServerRecv? || e.VisitRecv?)
    ensures After(k, es) == k.(server := k.server.(recv := Ended), up := EMPTY_CHAN)
  {
    if k.up.frames == [VisitConfirmed] {
      ConfirmationRead(k);
      OneStep(k, ServerRecv(VisitConfirmed));
      es := [ServerRecv(VisitConfirmed)];
    } else {
      PingSkipped(k);
      ConfirmationRead(Apply(k, VisitRecv(Ping)));
      TwoSteps(k, VisitRecv(Ping), ServerRecv(VisitConfirmed));
      es := [VisitRecv(Ping), ServerRecv(VisitConfirmed)];
      assert es[1] == ServerRecv(VisitConfirmed);
    }
    hide Enabled, Apply, IsRun, After;
  }

  lemma PingSkipped(k: Conn)
    requires k.server.alive && k.server.visit.Reading? && |k.up.stamps| == 2 && k.up.frames == [Ping, VisitConfirmed]
    ensures Enabled(k, VisitRecv(Ping))
    ensures Apply(k, VisitRecv(Ping)) == k.(up := Chan([VisitConfirmed], k.up.stamps[1..], k.up.raw))
  {
    assert [Ping, VisitConfirmed][1..] == [VisitConfirmed];
  }

  lemma ConfirmationRead(k: Conn)
    requires k.server.alive && k.server.recv.Parked? && k.server.visited
    requires |k.up.stamps| == 1 && k.up.frames == [VisitConfirmed] && k.up.raw == []
    ensures Enabled(k, ServerRecv(VisitConfirmed))
    ensures Apply(k, ServerRecv(VisitConfirmed)) == k.(server := k.server.(recv := Ended), up := EMPTY_CHAN)
  {
    assert [VisitConfirmed][1..] == [] && k.up.stamps[1..] == [];
  }

  /** What is left when the confirmation has gone to the wrong reader: a visit that reads on, and empty lines. */
  ghost predicate Stranded(k: Conn) {
    && k.client.alive && k.client.pc.Confirmed? && k.client.visited
    && k.server.alive && k.server.visit.Reading? && k.server.recv.Ended?
    && k.up == EMPTY_CHAN && k.down == EMPTY_CHAN
  }

  /** The steps that a stranded visit takes to get there. */
  predicate Quiet(e: Event) {
    e.RunQueue? || e.ServerSend? || e.ServerAnswered? || e.VisitAnnounced? || e.ClientRecv? || e.ServerRecv? ||
      e.VisitRecv?
  }

  /** From the beginning of the visit to the drained outbox. */
  lemma VisitDrained(k: Conn, v: Msg) returns (es: seq<Event>, k': Conn)
    requires Reachable(k) && k.client.alive && Enabled(k, VisitStart(v)) && !k.server.recv.Parked?
    ensures var k1 := Apply(k, VisitStart(v)); IsRun(k1, es) && After(k1, es) == k' && forall e <- es :: Quiet(e)
    ensures var s := k'.server;
            && s.alive && s.visited && s.recv.Providing? && s.visit.Announcing?
            && Served(s.path, s.recv.call) && Served(s.path, s.visit.call)
    ensures k'.client == k.client && k'.up == k.up && k'.down.raw == [] && |k'.down.stamps| == |k'.down.frames|
    ensures k'.down.frames == [v] || k'.down.frames == [Pong, v]
  {
    WhenNotParked(k, v);
    var p := k.server.path;
    HandedInv(p, Visitor, v);
    var k1 := Apply(k, VisitStart(v));
    var s1 := Visiting(k.server, v, k.now);
    hide PathInv, Outbox, CallCount, Handed;
    assert k1 == k.(server := s1);
    HandedOpens(p, v);
    hide Enabled, Apply, Reachable;
    var p', ch;
    es, p', ch := Drain(k1);
    k' := k1.(server := k1.server.(path := p'), down := ch);
    assert ch.frames == k.down.frames + (Outbox(p) + [v]);
    LineAnd(k.down.frames, Outbox(p), v);
  }

  lemma HandedOpens(p: Path, v: Msg)
    ensures Handed(p, Visitor, v).q.closed == p.q.closed
    ensures Handed(p, Visitor, v).q.abortedWaits == p.q.abortedWaits
  {
  }

  lemma LineAnd(a: seq<Msg>, b: seq<Msg>, v: Msg)
    requires a + b == [] || a + b == [Pong]
    ensures a + (b + [v]) == [v] || a + (b + [v]) == [Pong, v]
  {
    assert a + (b + [v]) == (a + b) + [v];
  }

  /** From the drained outbox to the stranded visit. */
  lemma AnnouncedStrands(k: Conn, v: Msg) returns (es: seq<Event>)
    requires k.client.alive && k.client.pc.Receiving? && v.VisitTcpShare?
    requires k.server.alive && k.server.visited && k.server.recv.Providing? && k.server.visit.Announcing?
    requires Served(k.server.path, k.server.recv.call) && Served(k.server.path, k.server.visit.call)
    requires k.down.raw == [] && |k.down.stamps| == |k.down.frames|
    requires k.down.frames == [v] || k.down.frames == [Pong, v]
    requires k.up.raw == [] && |k.up.stamps| == |k.up.frames|
    requires k.up.frames == [] || k.up.frames == [Ping]
    ensures IsRun(k, es) && Stranded(After(k, es))
    ensures ServerRecv(VisitConfirmed) in es && forall e <- es :: Quiet(e)
  {
    hide Served, Closed, Enabled, Apply, IsRun, After;
    var fs, ddl := Announces(k);
    var k3 := After(k, fs);
    var gs, up := ClientConfirms(k3, v);
    RunsJoin(k, fs, gs);
    var hs := WrongReader(After(k3, gs));
    RunsJoin(k, fs + gs, hs);
    es := fs + gs + hs;
  }

  /**
   From every reachable state in which the client is up and a visit can begin while the
   receiving coroutine is not parked, the steps of the workers alone strand the visit.
   */
  lemma UnparkedStrands(k: Conn, v: Msg) returns (es: seq<Event>)
    requires Reachable(k) && k.client.alive && Enabled(k, VisitStart(v)) && !k.server.recv.Parked?
    ensures var k1 := Apply(k, VisitStart(v)); IsRun(k1, es) && Stranded(After(k1, es))
    ensures ServerRecv(VisitConfirmed) in es && forall e <- es :: Quiet(e)
  {
    WhenNotParked(k, v);
    var k1 := Apply(k, VisitStart(v));
    var k2;
    es, k2 := VisitDrained(k, v);
    assert k2.client == k.client && k2.up == k.up;
    hide *;
    var fs := AnnouncedStrands(k2, v);
    RunsJoin(k1, es, fs);
    es := es + fs;
  }

  /**
   The guard, exactly: in every state of every orderly run in which the client is up
   and a visit can begin, the receiving coroutine is parked if and only if it can never
   take the confirmation of that visit, whatever happens after the visit began.
   */
  lemma GuardIsExact(now: Time, es: seq<Event>, v: Msg)
    requires IsRun(Opened(now), es) && OrderlyRun(Opened(now), es)
    requires var k := After(Opened(now), es); k.client.alive && Enabled(k, VisitStart(v))
    ensures var k := After(Opened(now), es);
            k.server.recv.Parked? <==>
              forall fs :: IsRun(Apply(k, VisitStart(v)), fs) ==> ServerRecv(VisitConfirmed) !in fs
  {
    RunReaches(now, es);
    var k := After(Opened(now), es);
    var k1 := Apply(k, VisitStart(v));
    assert k.server.recv.Parked? ==> k1.server.recv.Ended?;
    hide Reachable, Opened, IsRun, After, OrderlyRun, Enabled, Apply;
    if k.server.recv.Parked? {
      forall fs | IsRun(k1, fs) ensures ServerRecv(VisitConfirmed) !in fs {
        EndedReadsNothing(k1, fs);
      }
    } else {
      var fs := UnparkedStrands(k, v);
    }
  }
}

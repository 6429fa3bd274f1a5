/**
 How a server worker's sender ends: a stop of an unvisited worker closes its queue, and
 so does a visit behind its announcement; whatever waits on a closed queue is aborted.
 */
module Stopping {
  import opened Seqs
  import opened Messages
  import W = WaitQueue
  import opened SendPath
  import opened Session
  import opened Progress

  /** In every run, orderly or not: a worker that was stopped unvisited is down, and its queue is closed. */
  ghost predicate StopInv(k: Conn) {
    PathInv(k.server.path) && (k.server.stopping && !k.server.visited ==> !k.server.alive && k.server.path.q.closed)
  }

  /** What a step does to the send path, message by message. */
  lemma PathSteps(k: Conn, e: Event)
    requires Enabled(k, e)
    ensures var p, p' := k.server.path, Apply(k, e).server.path;
            || p' == p || p' == Closed(p)
            || p' == Handed(p, Receiver, Pong) || (e.VisitStart? && p' == Handed(p, Visitor, e.v))
            || (e.RunQueue? && p.q.posted != [] && p' == Ran(p)) || (e.ServerSend? && CanSend(p) && p' == Sent(p))
            || (e.SenderEnds? && p' == SenderStops(k.server).path)
  {
    hide Closed, Handed, Ran, Sent, CanSend, SenderEnded;
  }

  lemma SenderEndsPath(k: Conn)
    requires StopInv(k) && Enabled(k, SenderEnds)
    ensures PathInv(SenderStops(k.server).path)
  {
    var p := k.server.path;
    SenderEndedInv(p);
    ClosedInv(p);
    SenderEndedInv(Closed(p));
    hide PathInv, Outbox, CallCount;
  }

  lemma StepPathInv(k: Conn, e: Event)
    requires StopInv(k) && Enabled(k, e)
    ensures PathInv(Apply(k, e).server.path)
  {
    var p := k.server.path;
    PathSteps(k, e);
    ClosedInv(p);
    HandedInv(p, Receiver, Pong);
    if e.VisitStart? {
      HandedInv(p, Visitor, e.v);
    }
    if e.RunQueue? && p.q.posted != [] {
      RanInv(p);
    }
    if e.ServerSend? && CanSend(p) {
      SentInv(p);
    }
    if e.SenderEnds? {
      SenderEndsPath(k);
    }
    hide PathInv, Outbox, Enabled, Apply, Handed, Closed, Ran, Sent, CanSend, CallCount, SenderStops, NextMessage;
  }

  lemma StepStopInv(k: Conn, e: Event)
    requires StopInv(k) && Enabled(k, e)
    ensures StopInv(Apply(k, e))
  {
    StepPathInv(k, e);
    if k.server.path.q.closed {
      StaysClosed(k, e);
    }
    hide PathInv, Ran;
  }

  /** A closed queue stays closed, and hands nothing over any more. */
  lemma StaysClosed(k: Conn, e: Event)
    requires Enabled(k, e) && k.server.path.q.closed
    ensures var q, q' := k.server.path.q, Apply(k, e).server.path.q;
            q'.closed && q'.got == q.got && q'.values == q.values && q'.served == q.served
  {
    PathSteps(k, e);
    if e.RunQueue? {
      RanClosed(k.server.path);
    }
    hide Enabled, Apply, Ran, Outbox, CanSend;
  }

  lemma RanClosed(p: Path)
    requires p.q.closed && p.q.posted != []
    ensures var q' := Ran(p).q;
            q'.closed && q'.got == p.q.got && q'.values == p.q.values && q'.served == p.q.served
  {
  }

  lemma {:induction false} RunStopInv(k: Conn, es: seq<Event>)
    requires StopInv(k) && IsRun(k, es)
    ensures StopInv(After(k, es))
    decreases |es|
  {
    hide StopInv, Enabled, Apply;
    if es != [] {
      StepStopInv(k, es[0]);
      RunStopInv(Apply(k, es[0]), es[1..]);
    }
  }

  lemma {:induction false} NothingMatched(k: Conn, es: seq<Event>)
    requires IsRun(k, es) && k.server.path.q.closed
    ensures var q, q' := k.server.path.q, After(k, es).server.path.q;
            q'.closed && q'.got == q.got && q'.values == q.values && q'.served == q.served
    decreases |es|
  {
    hide Enabled, Apply;
    if es != [] {
      StaysClosed(k, es[0]);
      NothingMatched(Apply(k, es[0]), es[1..]);
    }
  }

  // ---- A closed queue with nothing posted ------------------------------------------

  /** Nobody is left in it, and the sender's wait was aborted unless it has got a message. */
  lemma RestingClosed(p: Path)
    requires PathInv(p) && p.q.closed && p.q.posted == []
    ensures p.q.q == [] && p.q.vq == []
    ensures p.senderAlive ==> if p.wired == |p.q.got| then SenderAborted(p) else CanSend(p)
  {
    Bounds(p);
    var s := p.q;
    assert W.WaitAccounted(s, Sender) && W.DrainTask !in s.posted;
    AllOccur(s.calledWaits, Sender);
    hide W.InCallOrder;
    if p.wired == |s.got| && s.abortedWaits == [] {
      assert multiset(s.got)[Sender] <= |s.got| by { CountAtMost(s.got, Sender); }
    }
  }

  lemma {:induction false} CountAtMost<T>(s: seq<T>, x: T)
    ensures multiset(s)[x] <= |s|
  {
    if s != [] {
      CountAtMost(s[1..], x);
      assert s == [s[0]] + s[1..];
    }
  }

  lemma RunsOneTask(k: Conn)
    requires PathInv(k.server.path) && k.server.path.q.posted != []
    ensures Enabled(k, RunQueue) && Apply(k, RunQueue) == k.(server := k.server.(path := Ran(k.server.path)))
    ensures var p, p' := k.server.path, Ran(k.server.path);
            && PathInv(p') && SenderStays(p, p') && p'.wired == p.wired && |p'.q.posted| == |p.q.posted| - 1
            && Outbox(p') == Outbox(p)
  {
    hide PathInv, Outbox, SenderStays, Ran, CallCount;
    RanInv(k.server.path);
    RanShrinks(k.server.path);
  }

  /** The executor runs what is posted, one task each. */
  lemma {:induction false} RunsDry(k: Conn) returns (es: seq<Event>, p: Path)
    requires PathInv(k.server.path)
    ensures IsRun(k, es) && (forall e <- es :: e.RunQueue?) && |es| == |k.server.path.q.posted|
    ensures After(k, es) == k.(server := k.server.(path := p))
    ensures PathInv(p) && p.q.posted == [] && SenderStays(k.server.path, p) && p.wired == k.server.path.wired
    ensures Outbox(p) == Outbox(k.server.path)
    decreases |k.server.path.q.posted|
  {
    hide PathInv, Enabled, Apply, Ran, Outbox;
    if k.server.path.q.posted == [] {
      es, p := [], k.server.path;
      assert k == k.(server := k.server.(path := p));
    } else {
      RunsOneTask(k);
      var m := Apply(k, RunQueue);
      var more: seq<Event>;
      more, p := RunsDry(m);
      es := [RunQueue] + more;
      assert es[1..] == more;
    }
  }

  // ---- Stopping ----------------------------------------------------------------------

  /** The steps that stop a worker: its share or its deadline, a message it does not expect, or its sender's end. */
  predicate Stops(e: Event) { e.ServerStop? || e.Deadline? || e.SenderEnds? || (e.ServerRecv? && !e.m.Ping?) }

  lemma StopCloses(k: Conn, e: Event)
    requires StopInv(k) && Enabled(k, e) && Stops(e)
    ensures !k.server.visited ==>
              var s := Apply(k, e).server; s.stopping && !s.alive && !s.visited && s.path.q.closed
    ensures k.server.visited && !e.SenderEnds? ==>
              var s := Apply(k, e).server; s.alive == k.server.alive && s.visited && s.path == k.server.path
  {
    hide PathInv;
  }

  lemma OpenedStopInv(now: Time)
    ensures StopInv(Opened(now))
  {
    StartInv();
    hide PathInv;
  }

  /** No message is waiting to be taken, and nobody waits for one. */
  predicate NobodyWaits(p: Path) { p.q.posted == [] && p.q.q == [] && p.q.vq == [] }

  /**
   In every run, whatever stops an unvisited worker: its socket and its queue are closed,
   and nothing is handed over from then on.  Running what was posted leaves nobody waiting
   and the sender ready to end: its wait is aborted, or it has got a message that it cannot
   write any more.
   */
  lemma StopEndsTheSender(now: Time, es: seq<Event>, e: Event) returns (fs: seq<Event>)
    requires IsRun(Opened(now), es)
    requires var k := After(Opened(now), es); Enabled(k, e) && Stops(e) && !k.server.visited
    ensures var s := Apply(After(Opened(now), es), e).server; s.stopping && !s.alive && s.path.q.closed
    ensures var k := Apply(After(Opened(now), es), e);
            && IsRun(k, fs) && (forall f <- fs :: f.RunQueue?) && |fs| == |k.server.path.q.posted|
            && var p, p' := k.server.path, After(k, fs).server.path;
               && NobodyWaits(p')
               && (p'.senderAlive ==> Enabled(After(k, fs), SenderEnds))
               && (p.senderAlive && p.wired == |p.q.got| ==> SenderAborted(p'))
    ensures forall gs :: IsRun(Apply(After(Opened(now), es), e), gs) ==>
              NothingMore(Apply(After(Opened(now), es), e), gs)
  {
    OpenedStopInv(now);
    RunStopInv(Opened(now), es);
    var k := After(Opened(now), es);
    hide StopInv, Enabled, Apply, IsRun, After, Opened, PathInv;
    StopCloses(k, e);
    StepStopInv(k, e);
    fs := EndsAfterStop(Apply(k, e));
    forall gs | IsRun(Apply(k, e), gs) ensures NothingMore(Apply(k, e), gs) {
      NothingMatched(Apply(k, e), gs);
    }
  }

  ghost predicate NothingMore(k: Conn, gs: seq<Event>)
    requires IsRun(k, gs)
  {
    var q, q' := k.server.path.q, After(k, gs).server.path.q;
    q'.got == q.got && q'.values == q.values && q'.served == q.served
  }

  lemma EndsAfterStop(k: Conn) returns (fs: seq<Event>)
    requires StopInv(k) && !k.server.alive && !k.server.visited && k.server.path.q.closed
    ensures IsRun(k, fs) && (forall f <- fs :: f.RunQueue?) && |fs| == |k.server.path.q.posted|
    ensures var p, p' := k.server.path, After(k, fs).server.path;
            && NobodyWaits(p')
            && (p'.senderAlive ==> Enabled(After(k, fs), SenderEnds))
            && (p.senderAlive && p.wired == |p.q.got| ==> SenderAborted(p'))
  {
    var p: Path;
    fs, p := RunsDry(k);
    RestingClosed(p);
    NothingMatched(k, fs);
    hide PathInv, IsRun, After, CanSend, Outbox;
  }

  /** A stop leaves a visited worker its socket and its queue. */
  lemma StopSparesAVisit(now: Time, es: seq<Event>, e: Event)
    requires IsRun(Opened(now), es)
    requires var k := After(Opened(now), es); Enabled(k, e) && Stops(e) && !e.SenderEnds? && k.server.visited
    ensures var s := After(Opened(now), es).server;
            var s' := Apply(After(Opened(now), es), e).server;
            s'.alive == s.alive && s'.path == s.path && s'.visit == s.visit
  {
    hide IsRun, After, Opened;
  }

  // ---- An end that is down ---------------------------------------------------------------

  /** The steps in which an end reads or writes its socket. */
  predicate UsesSocket(e: Event, atServer: bool) {
    if atServer then
      e.Accept? || e.ServerRecv? || e.VisitRecv? || e.ServerSend? || (e.PutRaw? && e.dir == Down) ||
      (e.TakeRaw? && e.dir == Up)
    else
      e.SendHello? || e.ClientRecv? || e.ClientPing? || (e.PutRaw? && e.dir == Up) || (e.TakeRaw? && e.dir == Down)
  }

  predicate IsUp(k: Conn, atServer: bool) { if atServer then k.server.alive else k.client.alive }

  /** What brings an end down: a failure; at the client any message but a visit or a pong, at the server any stop. */
  predicate BringsDown(k: Conn, e: Event, atServer: bool) {
    if atServer then e.ServerFail? || (Stops(e) && !k.server.visited)
    else e.ClientFail? || (e.ClientRecv? && !e.m.Pong? && !e.m.VisitTcpShare?)
  }

  lemma {:induction false} DownUsesNothing(k: Conn, es: seq<Event>, atServer: bool)
    requires IsRun(k, es) && !IsUp(k, atServer)
    ensures !IsUp(After(k, es), atServer) && forall e <- es :: !UsesSocket(e, atServer)
    decreases |es|
  {
    if es != [] {
      DownStays(k, es[0], atServer);
      hide Enabled, Apply, UsesSocket, IsUp;
      DownUsesNothing(Apply(k, es[0]), es[1..], atServer);
      assert forall e <- es :: e == es[0] || e in es[1..];
    }
  }

  lemma DownStays(k: Conn, e: Event, atServer: bool)
    requires Enabled(k, e) && !IsUp(k, atServer)
    ensures !IsUp(Apply(k, e), atServer) && !UsesSocket(e, atServer)
  {
  }

  /** In every run, an end that failed or was stopped neither reads nor writes its socket any more. */
  lemma DownIsSilent(now: Time, es: seq<Event>, e: Event, fs: seq<Event>, atServer: bool)
    requires IsRun(Opened(now), es) && Enabled(After(Opened(now), es), e)
    requires BringsDown(After(Opened(now), es), e, atServer) && IsRun(Apply(After(Opened(now), es), e), fs)
    ensures !IsUp(After(Apply(After(Opened(now), es), e), fs), atServer)
    ensures forall f <- fs :: !UsesSocket(f, atServer)
  {
    OpenedStopInv(now);
    RunStopInv(Opened(now), es);
    var k := After(Opened(now), es);
    hide StopInv, IsRun, After, Opened;
    if atServer && Stops(e) {
      StopCloses(k, e);
    }
    assert !IsUp(Apply(k, e), atServer);
    hide Apply, Enabled, IsUp, UsesSocket;
    DownUsesNothing(Apply(k, e), fs, atServer);
  }

  // ---- Behind an announcement ----------------------------------------------------------

  /** From a closed queue with everything served, the sender writes what is left and ends. */
  lemma {:induction false} SenderFinishes(k: Conn) returns (fs: seq<Event>)
    requires PathInv(k.server.path) && k.server.alive && k.server.path.q.closed
    ensures IsRun(k, fs) && forall f <- fs :: f.RunQueue? || f.ServerSend?
    ensures var p := After(k, fs).server.path; NobodyWaits(p) && (p.senderAlive ==> SenderAborted(p))
    ensures After(k, fs).server.visit == k.server.visit && OrderlyRun(k, fs)
    decreases |k.server.path.q.got| - k.server.path.wired
  {
    var es, p := RunsDry(k);
    RestingClosed(p);
    NothingMatched(k, es);
    var m := After(k, es);
    if p.senderAlive && p.wired < |p.q.got| {
      Bounds(p);
      SentInv(p);
      assert Enabled(m, ServerSend);
      var m' := Apply(m, ServerSend);
      assert m'.server == m.server.(path := Sent(p));
      hide PathInv, Enabled, Apply, Outbox, CanSend;
      var more := SenderFinishes(m');
      var tail := [ServerSend] + more;
      assert tail[1..] == more;
      RunsJoin(k, es, tail);
      fs := es + tail;
    } else {
      fs := es;
    }
    NoVisitBegins(k, fs);
  }

  lemma {:induction false} NoVisitBegins(k: Conn, es: seq<Event>)
    requires IsRun(k, es) && forall e <- es :: !e.VisitStart?
    ensures OrderlyRun(k, es)
    decreases |es|
  {
    hide Enabled, Apply;
    if es != [] {
      assert es[0] in es && forall e <- es[1..] :: e in es;
      NoVisitBegins(Apply(k, es[0]), es[1..]);
    }
  }

  ghost predicate AnnouncedClosed(k: Conn) {
    k.server.visit.NoVisit? || k.server.visit.Announcing? || k.server.path.q.closed
  }

  lemma {:induction false} RunAnnounced(k: Conn, es: seq<Event>)
    requires AnnouncedClosed(k) && IsRun(k, es)
    ensures AnnouncedClosed(After(k, es))
    decreases |es|
  {
    if es != [] {
      if k.server.path.q.closed {
        StaysClosed(k, es[0]);
      }
      assert AnnouncedClosed(Apply(k, es[0])) by { hide Ran, IsRun; }
      hide AnnouncedClosed, Enabled, Apply;
      RunAnnounced(Apply(k, es[0]), es[1..]);
    }
  }

  /**
   In every orderly run, once the announcement of a visit was taken, the executor and the
   sender alone write everything that was handed over, and the sender's wait is aborted.
   */
  lemma AnnouncementEndsTheSender(now: Time, es: seq<Event>) returns (fs: seq<Event>)
    requires IsRun(Opened(now), es) && OrderlyRun(Opened(now), es)
    requires var s := After(Opened(now), es).server; s.alive && (s.visit.Reading? || s.visit.Done?)
    ensures var k := After(Opened(now), es);
            && IsRun(k, fs) && (forall f <- fs :: f.RunQueue? || f.ServerSend?)
            && var p := After(k, fs).server.path;
               NobodyWaits(p) && Outbox(p) == [] && (p.senderAlive ==> SenderAborted(p))
  {
    OpenedInv(now);
    RunInv(Opened(now), es);
    RunAnnounced(Opened(now), es);
    var k := After(Opened(now), es);
    assert PathInv(k.server.path);
    hide Inv, IsRun, OrderlyRun, After, Opened, Outbox, PathInv, CanSend;
    fs := SenderFinishes(k);
    RunInv(k, fs);
    NothingLeft(After(k, fs));
  }

  lemma NothingLeft(k: Conn)
    requires Inv(k) && (k.server.visit.Reading? || k.server.visit.Done?)
    requires var p := k.server.path; p.senderAlive ==> SenderAborted(p)
    ensures Outbox(k.server.path) == []
  {
    ServedIsWritten(k.server.path);
    hide PathInv, Outbox;
  }
}

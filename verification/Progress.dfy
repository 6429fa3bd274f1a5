/**
 What the workers' own steps achieve: from every state of an orderly run in which a
 visit has begun and both ends are up, they complete it, with no help from timers.
 */
module Progress {
  import opened Seqs
  import opened Framing
  import opened Messages
  import W = WaitQueue
  import opened SendPath
  import opened Session

  // ---- The queue is open for as long as it is needed ---------------------------

  /** Waits are aborted only by a closed queue, and a worker that runs and has nothing announced yet has an open one. */
  ghost predicate OpenInv(k: Conn) {
    var s := k.server;
    && (s.path.q.abortedWaits != [] ==> s.path.q.closed)
    && (s.alive && (s.visit.NoVisit? || s.visit.Announcing?) ==> !s.path.q.closed)
  }

  /** Running what was posted aborts waits only when the queue is closed. */
  lemma RunAborts(p: Path)
    requires PathInv(p) && p.q.posted != []
    ensures Ran(p).q.closed == p.q.closed
    ensures !p.q.closed ==> Ran(p).q.abortedWaits == p.q.abortedWaits
  {
    assert p.q.posted[0] == W.DrainTask ==> p.q.closed;
  }

  lemma PathOpens(k: Conn, e: Event)
    requires OpenInv(k) && Enabled(k, e) && !e.RunQueue?
    ensures OpenInv(Apply(k, e))
  {
    hide Outbox;
  }

  lemma StepOpens(k: Conn, e: Event)
    requires PathInv(k.server.path) && OpenInv(k) && Enabled(k, e)
    ensures OpenInv(Apply(k, e))
  {
    if e.RunQueue? {
      RunAborts(k.server.path);
      assert Apply(k, e) == k.(server := k.server.(path := Ran(k.server.path)));
      hide Apply, Enabled, PathInv, Ran;
    } else {
      hide PathInv, OpenInv, Apply, Enabled;
      PathOpens(k, e);
    }
  }

  lemma InvPath(k: Conn)
    requires Inv(k)
    ensures PathInv(k.server.path)
  {
  }

  lemma {:induction false} RunOpens(k: Conn, es: seq<Event>)
    requires Inv(k) && OpenInv(k) && IsRun(k, es) && OrderlyRun(k, es)
    ensures OpenInv(After(k, es))
    decreases |es|
  {
    hide Inv, OpenInv, PathInv, Apply, Enabled, Orderly;
    if es != [] {
      StepInv(k, es[0]);
      InvPath(k);
      StepOpens(k, es[0]);
      RunOpens(Apply(k, es[0]), es[1..]);
    }
  }

  /** What an orderly run can reach. */
  ghost predicate Reachable(k: Conn) { Inv(k) && OpenInv(k) }

  lemma RunReaches(now: Time, es: seq<Event>)
    requires IsRun(Opened(now), es) && OrderlyRun(Opened(now), es)
    ensures Reachable(After(Opened(now), es))
  {
    OpenedInv(now);
    assert OpenInv(Opened(now));
    hide Inv, OpenInv, Opened;
    RunInv(Opened(now), es);
    RunOpens(Opened(now), es);
  }

  /** A send path that is open and has nothing to do has served and written everything. */
  lemma RestingPath(p: Path)
    requires PathInv(p) && !p.q.closed && p.q.abortedWaits == [] && p.q.posted == [] && !CanSend(p)
    ensures Outbox(p) == [] && |p.q.served| == CallCount(p)
  {
    Bounds(p);
    assert p.q.calledWaits == p.q.waits && p.q.calledProvides == p.q.provs;
    hide W.WaitAccounted, W.Drained, W.InCallOrder;
  }

  // ---- A visit that has begun is completed --------------------------------------

  ghost predicate InVisit(k: Conn) {
    Reachable(k) && k.client.alive && k.server.alive && k.server.visited
  }

  predicate Complete(k: Conn) { k.client.pc.Piping? && k.server.visit.Done? }

  /** The steps of the workers themselves: no clock, no timer, no failure, no raw bytes. */
  predicate Own(e: Event) {
    e.RunQueue? || e.ServerSend? || e.VisitAnnounced? || e.ClientRecv? || e.VisitRecv? || e.ClientPipe?
  }

  /** What is still to be done, in steps. */
  function Left(k: Conn): int {
    4 * (CallCount(k.server.path) - k.server.path.wired) + |k.server.path.q.posted|
    + 2 * |k.down.frames| + |k.up.frames|
    + (if k.server.visit.Announcing? then 2 else 0) + (if k.client.pc.Piping? then 0 else 1)
  }

  function NextStep(k: Conn): Event {
    var s := k.server;
    if s.visit.Announcing? && Served(s.path, s.visit.call) then VisitAnnounced
    else if s.visit.Announcing? && s.path.q.posted != [] then RunQueue
    else if s.visit.Announcing? || Outbox(s.path) != [] then ServerSend
    else if !k.client.visited && k.down.frames != [] then ClientRecv(k.down.frames[0])
    else if s.visit.Reading? && k.up.frames != [] then VisitRecv(k.up.frames[0])
    else ClientPipe
  }

  lemma AnnouncingIsOpen(k: Conn)
    requires InVisit(k) && k.server.visit.Announcing?
    ensures var p := k.server.path;
            PathInv(p) && k.server.visit.call + 1 == CallCount(p) && !p.q.closed && p.q.abortedWaits == []
  {
    hide PathInv, UpShape, DownShape, OneToken;
  }

  lemma PathGoesOn(p: Path, call: nat)
    requires PathInv(p) && call + 1 == CallCount(p) && !p.q.closed && p.q.abortedWaits == []
    ensures Served(p, call) || p.q.posted != [] || CanSend(p)
  {
    if p.q.posted == [] && !CanSend(p) {
      RestingPath(p);
    }
    hide PathInv, Outbox;
  }

  lemma VisitIsUp(k: Conn)
    requires InVisit(k)
    ensures k.server.alive
  {
  }

  lemma CanAnnounce(k: Conn)
    requires InVisit(k) && k.server.visit.Announcing?
    ensures Enabled(k, NextStep(k))
  {
    hide InVisit, PathInv, Outbox, CanSend, CallCount, NextMessage, Served;
    AnnouncingIsOpen(k);
    PathGoesOn(k.server.path, k.server.visit.call);
    VisitIsUp(k);
  }

  lemma CanWrite(k: Conn)
    requires InVisit(k) && !k.server.visit.Announcing? && Outbox(k.server.path) != []
    ensures Enabled(k, NextStep(k)) && NextStep(k) == ServerSend
  {
    var p := k.server.path;
    assert PathInv(p) && |p.q.served| == CallCount(p) && !k.server.visit.NoVisit?;
    hide PathInv, Outbox, CanSend, Inv;
    ServedIsWritten(p);
  }

  lemma CanRead(k: Conn)
    requires InVisit(k) && !Complete(k) && !k.server.visit.Announcing? && Outbox(k.server.path) == []
    ensures Enabled(k, NextStep(k)) && !NextStep(k).VisitAnnounced? && !NextStep(k).RunQueue? &&
              !NextStep(k).ServerSend?
  {
    hide PathInv, Outbox, OpenInv;
    assert k.server.visit.Reading? || k.server.visit.Done?;
    assert DownLine(k) == k.down.frames;
    assert UpLine(k) == k.up.frames;
    assert !k.client.visited ==> |k.down.frames| >= 1;
    assert k.client.visited && k.server.visit.Reading? ==> |k.up.frames| >= 1;
  }

  lemma NextEnabled(k: Conn)
    requires InVisit(k) && !Complete(k)
    ensures Enabled(k, NextStep(k)) && Own(NextStep(k))
  {
    hide InVisit, Enabled, Outbox;
    if k.server.visit.Announcing? {
      CanAnnounce(k);
    } else if Outbox(k.server.path) != [] {
      CanWrite(k);
    } else {
      CanRead(k);
    }
  }

  /** No step of the workers themselves ends anything while the lines are in order. */
  lemma OwnKeeps(k: Conn, e: Event)
    requires InVisit(k) && Enabled(k, e) && Own(e)
    ensures InVisit(Apply(k, e))
  {
    var k' := Apply(k, e);
    assert Inv(k) && OpenInv(k);
    StepInv(k, e);
    InvPath(k);
    StepOpens(k, e);
    OwnAlive(k, e);
    hide Inv, OpenInv, Apply, Enabled;
  }

  lemma ReadAlive(k: Conn, e: Event)
    requires Inv(k) && Enabled(k, e) && (e.ClientRecv? || e.VisitRecv?)
    ensures Apply(k, e).client.alive == k.client.alive && Apply(k, e).server.alive == k.server.alive
    ensures Apply(k, e).server.visited == k.server.visited
  {
    if e.ClientRecv? {
      ClientSees(k, e.m);
    } else {
      VisitSees(k, e.m);
    }
    hide Inv;
  }

  lemma OwnAlive(k: Conn, e: Event)
    requires Inv(k) && Enabled(k, e) && Own(e)
    ensures Apply(k, e).client.alive == k.client.alive && Apply(k, e).server.alive == k.server.alive
    ensures Apply(k, e).server.visited == k.server.visited
  {
    if e.ClientRecv? || e.VisitRecv? {
      hide *;
      ReadAlive(k, e);
    } else {
      hide Inv;
    }
  }

  lemma RanShrinks(p: Path)
    requires p.q.posted != []
    ensures |Ran(p).q.posted| == |p.q.posted| - 1 && Ran(p).wired == p.wired
  {
  }

  lemma SendsShrink(k: Conn)
    requires Inv(k) && Enabled(k, ServerSend)
    ensures Left(Apply(k, ServerSend)) < Left(k)
  {
    SentInv(k.server.path);
    SendMoves(k);
    SentOutbox(k);
    var k' := Apply(k, ServerSend);
    var p := k.server.path;
    assert k'.server.path == Sent(p);
    assert Sent(p).wired == p.wired + 1 && |Sent(p).q.posted| == |p.q.posted| + 1;
    hide Inv, Apply, Enabled, PathInv, Outbox, Sent, CanSend, NextMessage, CallCount;
  }

  lemma QueueShrinks(k: Conn)
    requires Inv(k) && Enabled(k, RunQueue)
    ensures Left(Apply(k, RunQueue)) < Left(k)
  {
    var p := k.server.path;
    RanInv(p);
    hide Inv, PathInv, Ran;
    assert Apply(k, RunQueue) == k.(server := k.server.(path := Ran(p)));
    RanShrinks(p);
    hide Inv, Apply, Enabled, PathInv, Outbox, Ran, CallCount;
  }

  lemma ClientShrinks(k: Conn, m: Msg)
    requires Inv(k) && Enabled(k, ClientRecv(m))
    ensures Left(Apply(k, ClientRecv(m))) < Left(k)
  {
    ClientSees(k, m);
    hide Inv, CallCount;
    var k' := Apply(k, ClientRecv(m));
    assert k'.server == k.server && |k'.down.frames| == |k.down.frames| - 1 && |k'.up.frames| <= |k.up.frames| + 1;
    assert k'.client.pc.Piping? == k.client.pc.Piping?;
    hide Apply, Enabled;
  }

  lemma OthersShrink(k: Conn, e: Event)
    requires Enabled(k, e) && (e.VisitAnnounced? || e.VisitRecv? || e.ClientPipe?)
    ensures Left(Apply(k, e)) < Left(k)
  {
  }

  lemma LeftShrinks(k: Conn, e: Event)
    requires InVisit(k) && Enabled(k, e) && Own(e)
    ensures Left(Apply(k, e)) < Left(k)
  {
    assert Inv(k);
    hide Inv, InVisit, Apply, Enabled, Left;
    match e
    case ServerSend => SendsShrink(k);
    case RunQueue => QueueShrinks(k);
    case ClientRecv(m) => ClientShrinks(k, m);
    case _ => OthersShrink(k, e);
  }

  lemma LeftIsNat(k: Conn)
    requires Inv(k)
    ensures 0 <= Left(k)
  {
    Bounds(k.server.path);
    hide PathInv;
  }

  lemma VisitIsNat(k: Conn)
    requires InVisit(k)
    ensures 0 <= Left(k)
  {
    assert Inv(k);
    hide Inv, OpenInv;
    LeftIsNat(k);
  }

  /** However the workers' own steps are ordered, they come to an end, and keep the visit going. */
  lemma {:induction false} OwnStepsEnd(k: Conn, es: seq<Event>)
    requires InVisit(k) && IsRun(k, es) && forall e <- es :: Own(e)
    ensures |es| <= Left(k) && InVisit(After(k, es))
    decreases |es|
  {
    hide InVisit, Enabled, Apply, Left, Own;
    VisitIsNat(k);
    if es != [] {
      assert es[0] in es && forall e <- es[1..] :: e in es;
      OwnKeeps(k, es[0]);
      LeftShrinks(k, es[0]);
      OwnStepsEnd(Apply(k, es[0]), es[1..]);
    }
  }

  lemma {:induction false} VisitCompletes(k: Conn) returns (es: seq<Event>)
    requires InVisit(k)
    ensures IsRun(k, es) && OrderlyRun(k, es) && (forall e <- es :: Own(e))
    ensures var k' := After(k, es); InVisit(k') && Complete(k')
    decreases Left(k)
  {
    hide InVisit, Enabled, Apply, Left, NextStep;
    if Complete(k) {
      es := [];
    } else {
      var e := NextStep(k);
      NextEnabled(k);
      OwnKeeps(k, e);
      LeftShrinks(k, e);
      VisitIsNat(Apply(k, e));
      var more := VisitCompletes(Apply(k, e));
      es := [e] + more;
      assert es[1..] == more;
    }
  }

  /**
   In every orderly run, from every state with both ends up and a visit begun, some of the
   workers' own steps complete the visit, and both ends hand their sockets over.
   */
  lemma EveryVisitCompletes(now: Time, es: seq<Event>) returns (fs: seq<Event>)
    requires IsRun(Opened(now), es) && OrderlyRun(Opened(now), es)
    requires var k := After(Opened(now), es); k.client.alive && k.server.alive && k.server.visited
    ensures var k := After(Opened(now), es);
            && IsRun(k, fs) && OrderlyRun(k, fs) && (forall e <- fs :: Own(e))
            && Complete(After(k, fs)) && After(k, fs).client.alive && After(k, fs).server.alive
  {
    RunReaches(now, es);
    var k := After(Opened(now), es);
    assert InVisit(k);
    hide Reachable, Opened, Complete, IsRun, After, OrderlyRun;
    fs := VisitCompletes(k);
  }

  /** None of the workers' own steps can be taken any more. */
  ghost predicate AtRest(k: Conn) { forall e: Event :: Own(e) ==> !Enabled(k, e) }

  lemma RestIsComplete(k: Conn)
    requires InVisit(k) && AtRest(k)
    ensures Complete(k)
  {
    hide InVisit, Enabled, Own, NextStep;
    if !Complete(k) {
      NextEnabled(k);
    }
  }

  /**
   However the workers' own steps are ordered: there are at most as many as the measure
   says, and when none can be taken any more the visit is complete.  So every maximal run
   of them completes it.
   */
  lemma EveryOrderCompletes(now: Time, es: seq<Event>, fs: seq<Event>)
    requires IsRun(Opened(now), es) && OrderlyRun(Opened(now), es)
    requires var k := After(Opened(now), es); k.client.alive && k.server.alive && k.server.visited
    requires IsRun(After(Opened(now), es), fs) && forall e <- fs :: Own(e)
    ensures var k := After(Opened(now), es);
            && |fs| <= Left(k)
            && (AtRest(After(k, fs)) ==> Complete(After(k, fs)))
            && After(k, fs).client.alive && After(k, fs).server.alive
  {
    RunReaches(now, es);
    var k := After(Opened(now), es);
    assert InVisit(k);
    hide Reachable, Opened, Complete, IsRun, After, OrderlyRun, AtRest;
    OwnStepsEnd(k, fs);
    if AtRest(After(k, fs)) {
      RestIsComplete(After(k, fs));
    }
  }
}

/**
 The keep-alive: when frames arrive in less than twenty seconds and processing
 takes no time, an unvisited worker is never stopped by its deadline, and twenty
 seconds is the exact bound; and a deadline that stops a worker had sixty seconds
 without an answered ping.
 */
module KeepAlive {
  import opened Seqs
  import opened Messages
  import opened SendPath
  import opened Session
  import opened Progress

  const LATENCY: Time := 20 * SECOND

  /**
   The clock advances only while every frame on the wire stays younger than the
   latency, no ping is overdue, and the server has nothing left to do at once.
   */
  ghost predicate Prompt(latency: Time, k: Conn, e: Event) {
    e.Tick? ==>
      && (forall t <- k.up.stamps + k.down.stamps :: k.now + e.d - t < latency)
      && (k.client.timer.Some? ==> k.now + e.d <= k.client.timer.value)
      && !k.server.recv.Providing? && Outbox(k.server.path) == []
  }

  ghost predicate PromptRun(latency: Time, k: Conn, es: seq<Event>)
    requires IsRun(k, es)
    decreases |es|
  {
    es == [] || (Orderly(k, es[0]) && Prompt(latency, k, es[0]) && PromptRun(latency, Apply(k, es[0]), es[1..]))
  }

  ghost predicate Young(k: Conn) {
    && (forall i :: 0 <= i < |k.up.stamps| ==> 0 <= k.now - k.up.stamps[i] < LATENCY)
    && (forall i :: 0 <= i < |k.down.stamps| ==> 0 <= k.now - k.down.stamps[i] < LATENCY)
    && (k.client.timer.Some? ==> k.now <= k.client.timer.value)
  }

  /** Wherever the ping token is, the deadline leaves it time to come back to the server as a ping. */
  ghost predicate InTime(k: Conn) {
    var c, s := k.client, k.server;
    var ddl := if s.ddl.Some? then s.ddl.value else 0;
    if c.pc.Fresh? then true
    else if s.recv.NotAccepted? then
      c.timer.Some? && PingsInFlight(k) == 0 && |k.up.stamps| == 1 && c.timer.value == k.up.stamps[0] + PING_AFTER
    else
      && s.ddl.Some? && k.now < ddl
      && (s.recv.Parked? ==>
            && (c.timer.Some? ==> ddl >= c.timer.value + LATENCY)
            && (|k.up.frames| == 1 && |k.up.stamps| == 1 ==> ddl >= k.up.stamps[0] + LATENCY)
            && (|k.down.frames| == 1 && |k.down.stamps| == 1 ==> ddl >= k.down.stamps[0] + IDLE_LIMIT)
            && (Outbox(s.path) != [] ==> ddl >= k.now + IDLE_LIMIT))
      && (s.recv.Providing? ==>
            && k.up.frames == []
            && (c.timer.Some? ==> c.timer.value == k.now + PING_AFTER)
            && (|k.down.stamps| == 1 ==> k.down.stamps[0] == k.now))
  }

  /** Both ends are up and no visit has begun. */
  predicate Waiting(k: Conn) { k.client.alive && k.server.alive && !k.server.visited }

  ghost predicate KeptAlive(k: Conn) {
    Inv(k) && Young(k) && (Waiting(k) ==> InTime(k))
  }

  /** While no visit has begun, the lines hold at most the hello and the token. */
  lemma WaitingLines(k: Conn)
    requires Inv(k) && Waiting(k)
    ensures |k.up.stamps| == |k.up.frames| && |k.down.stamps| == |k.down.frames|
    ensures !k.client.visited && !k.server.recv.Ended?
    ensures k.client.pc.Fresh? ==> k.up.frames == [] && k.server.recv.NotAccepted?
    ensures |k.down.frames| + |Outbox(k.server.path)| == PongsInFlight(k)
    ensures k.server.recv.NotAccepted? ==> PongsInFlight(k) == 0
    ensures |k.up.frames| == PingsInFlight(k) + One(HelloPending(k))
    ensures !k.client.pc.Fresh? ==> One(k.client.timer.Some?) + PingsInFlight(k) + PongsInFlight(k) == 1
    ensures 0 <= PingsInFlight(k) && 0 <= PongsInFlight(k)
  {
    hide PathInv, Outbox;
  }

  lemma StampsMatch(k: Conn)
    requires Inv(k)
    ensures |k.up.stamps| == |k.up.frames| && |k.down.stamps| == |k.down.frames|
  {
    hide PathInv, Outbox, UpLine, DownLine;
  }

  lemma StaysYoung(latency: Time, k: Conn, e: Event)
    requires Young(k) && Enabled(k, e) && Prompt(latency, k, e) && latency <= LATENCY
    requires |k.up.stamps| == |k.up.frames| && |k.down.stamps| == |k.down.frames|
    ensures Young(Apply(k, e))
  {
    hide Outbox, CanSend, NextMessage;
    if e.Tick? {
      forall i | 0 <= i < |k.up.stamps| ensures k.now + e.d - k.up.stamps[i] < LATENCY {
        assert k.up.stamps[i] in k.up.stamps + k.down.stamps;
      }
      forall i | 0 <= i < |k.down.stamps| ensures k.now + e.d - k.down.stamps[i] < LATENCY {
        assert k.down.stamps[i] in k.up.stamps + k.down.stamps;
      }
    }
  }

  /** The hello is on the wire, the timer is armed with it, and nothing else is sent yet. */
  lemma GreetedInTime(k: Conn, hello: Msg)
    requires k.server.recv.NotAccepted? && k.client.pc.Receiving? && !k.client.visited
    requires k.up.frames == [hello] && k.up.stamps == [k.now] && k.client.timer == Some(k.now + PING_AFTER)
    ensures InTime(k)
  {
    hide Outbox, PongsInFlight;
    assert UpLine(k) == [];
  }

  lemma HelloSent(k: Conn, m: Msg)
    requires Enabled(k, SendHello(m)) && k.up.frames == [] && k.up.stamps == []
    ensures Apply(k, SendHello(m)) == k.(client := ClientHelloSent(k.client, k.now), up := Chan([m], [k.now], k.up.raw))
  {
    assert [] + [m] == [m] && [] + [k.now] == [k.now];
  }

  lemma SendHelloInTime(k: Conn, e: Event)
    requires KeptAlive(k) && Enabled(k, e) && Waiting(k) && e.SendHello?
    ensures InTime(Apply(k, e))
  {
    NothingSentYet(k, e);
    hide Inv, KeptAlive, Young, InTime, Apply, Enabled, Waiting;
    HelloSent(k, e.hello);
    GreetedInTime(Apply(k, e), e.hello);
  }

  lemma NothingSentYet(k: Conn, e: Event)
    requires KeptAlive(k) && Enabled(k, e) && Waiting(k) && e.SendHello?
    ensures e == SendHello(e.hello) && k.up.frames == [] && k.up.stamps == []
    ensures k.server.recv.NotAccepted? && !k.client.visited
  {
    WaitingLines(k);
    hide Inv, Outbox, PongsInFlight, PingsInFlight, Young, InTime;
  }

  lemma ClientRecvInTime(k: Conn, e: Event)
    requires KeptAlive(k) && Enabled(k, e) && Waiting(k) && e.ClientRecv? && Waiting(Apply(k, e))
    ensures InTime(Apply(k, e))
  {
    WaitingLines(k);
    ClientSees(k, e.m);
    assert e.m.Pong? && !VisitPending(k);
    hide Inv, Outbox, PingsInFlight, PongsInFlight;
    assert k.down.stamps[0] in k.down.stamps;
  }

  lemma ClientPingInTime(k: Conn, e: Event)
    requires KeptAlive(k) && Enabled(k, e) && Waiting(k) && e.ClientPing?
    ensures InTime(Apply(k, e))
  {
    WaitingLines(k);
    hide Inv, Outbox, PingsInFlight, PongsInFlight;
  }

  lemma AcceptInTime(k: Conn, e: Event)
    requires KeptAlive(k) && Enabled(k, e) && Waiting(k) && e.Accept?
    ensures InTime(Apply(k, e))
  {
    WaitingLines(k);
    hide Inv, Outbox, PingsInFlight, PongsInFlight;
  }

  lemma ServerRecvInTime(k: Conn, e: Event)
    requires KeptAlive(k) && Enabled(k, e) && Waiting(k) && e.ServerRecv?
    ensures InTime(Apply(k, e))
  {
    WaitingLines(k);
    ServerSees(k, e.m);
    assert PingsInFlight(k) == 1;
    hide Inv, Outbox, PingsInFlight, PongsInFlight;
  }

  lemma ServerAnsweredInTime(k: Conn, e: Event)
    requires KeptAlive(k) && Enabled(k, e) && Waiting(k) && e.ServerAnswered?
    ensures InTime(Apply(k, e))
  {
    WaitingLines(k);
    hide Inv, Outbox, PingsInFlight, PongsInFlight;
  }

  lemma ServerSendInTime(k: Conn, e: Event)
    requires KeptAlive(k) && Enabled(k, e) && Waiting(k) && e.ServerSend?
    ensures InTime(Apply(k, e))
  {
    WaitingLines(k);
    SentOutbox(k);
    var k' := Apply(k, e);
    assert k'.up == k.up && k'.client == k.client && k'.server.recv == k.server.recv && k'.server.ddl == k.server.ddl;
    assert k'.down.stamps == k.down.stamps + [k.now];
    hide Inv, Outbox, PongsInFlight, Apply, Enabled;
  }

  lemma TickInTime(latency: Time, k: Conn, e: Event)
    requires KeptAlive(k) && Enabled(k, e) && Waiting(k) && e.Tick? && Prompt(latency, k, e) && latency <= LATENCY
    ensures InTime(Apply(k, e))
  {
    WaitingLines(k);
    StaysYoung(latency, k, e);
    var k' := Apply(k, e);
    assert k' == k.(now := k.now + e.d);
    assert PingsInFlight(k') == PingsInFlight(k);
    hide Inv, Outbox, PingsInFlight, PongsInFlight, Apply, Enabled;
  }

  /** The steps that leave a connection waiting. */
  lemma WaitingSteps(k: Conn, e: Event)
    requires Inv(k) && Enabled(k, e) && Waiting(k) && Waiting(Apply(k, e))
    ensures e.SendHello? || e.ClientRecv? || e.ClientPing? || e.Accept? || e.ServerRecv? || e.ServerAnswered? ||
            e.ServerSend? || e.Tick? || e.RunQueue?
  {
    hide PathInv, UpShape, DownShape, OneToken;
    assert !k.server.visited && !k.client.visited && k.server.visit.NoVisit?;
    assert e.ServerStop? || e.Deadline? ==> !TryStop(k.server).alive;
    assert !k.server.stopping && !SenderStops(k.server).alive;
  }

  lemma QueueInTime(k: Conn, e: Event)
    requires KeptAlive(k) && Enabled(k, e) && Waiting(k) && e.RunQueue?
    ensures InTime(Apply(k, e))
  {
    OutboxKept(k, e);
    var k' := Apply(k, e);
    hide Inv, Outbox, InTime, UpLine;
    assert k' == k.(server := k.server.(path := k'.server.path));
    hide Apply, Enabled;
    assert UpLine(k') == UpLine(k) by { SameUpLine(k, k'.server.path); }
    SameInTime(k, k');
  }

  lemma SameUpLine(k: Conn, p: Path)
    ensures UpLine(k.(server := k.server.(path := p))) == UpLine(k)
  {
  }

  lemma SameInTime(k: Conn, k': Conn)
    requires InTime(k)
    requires k'.now == k.now && k'.up.frames == k.up.frames && k'.up.stamps == k.up.stamps
    requires k'.down.frames == k.down.frames && k'.down.stamps == k.down.stamps
    requires k'.client.timer == k.client.timer && (k'.client.pc.Fresh? <==> k.client.pc.Fresh?)
    requires k'.server.recv == k.server.recv && k'.server.ddl == k.server.ddl
    requires PingsInFlight(k') == PingsInFlight(k) && Outbox(k'.server.path) == Outbox(k.server.path)
    ensures InTime(k')
  {
    hide Outbox, PingsInFlight;
  }

  lemma StepInTime(latency: Time, k: Conn, e: Event)
    requires KeptAlive(k) && Enabled(k, e) && Prompt(latency, k, e) && latency <= LATENCY
    requires Waiting(k) && Waiting(Apply(k, e))
    ensures InTime(Apply(k, e))
  {
    assert Inv(k);
    hide *;
    WaitingSteps(k, e);
    match e
    case SendHello(_) => SendHelloInTime(k, e);
    case ClientRecv(_) => ClientRecvInTime(k, e);
    case ClientPing => ClientPingInTime(k, e);
    case Accept(_) => AcceptInTime(k, e);
    case ServerRecv(_) => ServerRecvInTime(k, e);
    case ServerAnswered => ServerAnsweredInTime(k, e);
    case ServerSend => ServerSendInTime(k, e);
    case Tick(_) => TickInTime(latency, k, e);
    case _ => QueueInTime(k, e);
  }

  lemma StepKeptAlive(latency: Time, k: Conn, e: Event)
    requires KeptAlive(k) && Enabled(k, e) && Orderly(k, e) && Prompt(latency, k, e) && latency <= LATENCY
    ensures KeptAlive(Apply(k, e))
  {
    hide Inv, Apply, Enabled, Orderly, Prompt, InTime, Young, Waiting;
    StepInv(k, e);
    StampsMatch(k);
    StaysYoung(latency, k, e);
    if Waiting(Apply(k, e)) {
      WaitingStays(k, e);
      StepInTime(latency, k, e);
    }
  }

  lemma WaitingStays(k: Conn, e: Event)
    requires Enabled(k, e) && Waiting(Apply(k, e))
    ensures Waiting(k)
  {
  }

  lemma {:induction false} RunKeptAlive(latency: Time, k: Conn, es: seq<Event>)
    requires KeptAlive(k) && IsRun(k, es) && PromptRun(latency, k, es) && latency <= LATENCY
    ensures KeptAlive(After(k, es))
    decreases |es|
  {
    hide KeptAlive, Apply, Enabled, Orderly, Prompt;
    if es != [] {
      StepKeptAlive(latency, k, es[0]);
      RunKeptAlive(latency, Apply(k, es[0]), es[1..]);
    }
  }

  /** The server's deadline stops a worker that nobody visited, with both ends up. */
  predicate Expires(k: Conn) { Waiting(k) && !k.server.recv.NotAccepted? && Enabled(k, Deadline) }

  /**
   In every run with less than twenty seconds of latency, as long as both ends are up and
   no visit has begun, the server's deadline lies ahead: it cannot stop the worker.
   */
  lemma DeadlineNeverExpires(latency: Time, now: Time, es: seq<Event>)
    requires IsRun(Opened(now), es) && PromptRun(latency, Opened(now), es) && latency <= LATENCY
    ensures var k := After(Opened(now), es);
            && (Waiting(k) && !k.server.recv.NotAccepted? ==> k.server.ddl.Some? && k.now < k.server.ddl.value)
            && !Expires(k)
  {
    OpenedKeptAlive(now);
    hide *;
    RunKeptAlive(latency, Opened(now), es);
    DeadlineAhead(After(Opened(now), es));
  }

  lemma OpenedKeptAlive(now: Time)
    ensures KeptAlive(Opened(now))
  {
    OpenedInv(now);
    hide Inv;
  }

  lemma DeadlineAhead(k: Conn)
    requires KeptAlive(k)
    ensures Waiting(k) && !k.server.recv.NotAccepted? ==> k.server.ddl.Some? && k.now < k.server.ddl.value
    ensures !Expires(k)
  {
    NotFresh(k);
    hide Inv, Outbox, PingsInFlight, Young;
  }

  lemma NotFresh(k: Conn)
    requires KeptAlive(k)
    ensures k.client.pc.Fresh? ==> k.server.recv.NotAccepted?
  {
    hide PathInv, UpShape, DownShape, OneToken, Young, InTime;
  }

  // ---- Twenty seconds is the exact bound --------------------------------------

  ghost predicate Prompted(latency: Time, now: Time, es: seq<Event>, k: Conn) {
    IsRun(Opened(now), es) && PromptRun(latency, Opened(now), es) && After(Opened(now), es) == k
  }

  lemma {:induction false} PromptExtend(latency: Time, k: Conn, es: seq<Event>, e: Event)
    requires IsRun(k, es) && PromptRun(latency, k, es)
    requires Enabled(After(k, es), e) && Orderly(After(k, es), e) && Prompt(latency, After(k, es), e)
    ensures IsRun(k, es + [e]) && PromptRun(latency, k, es + [e])
    decreases |es|
  {
    hide Enabled, Apply, Orderly, Prompt;
    Extend(k, es, e);
    if es == [] {
      assert es + [e] == [e] && [e][1..] == [];
    } else {
      PromptExtend(latency, Apply(k, es[0]), es[1..], e);
      assert (es + [e])[1..] == es[1..] + [e];
    }
  }

  lemma PromptMore(latency: Time, now: Time, es: seq<Event>, k: Conn, e: Event, k': Conn)
    requires Prompted(latency, now, es, k) && Enabled(k, e) && Orderly(k, e) && Prompt(latency, k, e)
    requires Apply(k, e) == k'
    ensures Prompted(latency, now, es + [e], k')
  {
    hide Enabled, Apply, Orderly, Prompt;
    Extend(Opened(now), es, e);
    PromptExtend(latency, Opened(now), es, e);
  }

  /** The send path when one pong goes through it: waiting, handed over, taken, written. */
  lemma OnePong() returns (idle: Path, handed: Path, taken: Path, written: Path)
    ensures Start().q.posted != [] && idle == Ran(Start()) && Outbox(Start()) == [] && Outbox(idle) == []
    ensures handed == Handed(idle, Receiver, Pong) && CallCount(idle) == 0
    ensures handed.q.posted != [] && taken == Ran(handed) && Served(taken, 0)
    ensures CanSend(taken) && NextMessage(taken) == Pong && written == Sent(taken) && Outbox(written) == []
  {
    idle := Ran(Start());
    assert idle.q.q == [Sender] && idle.q.posted == [];
    handed := Handed(idle, Receiver, Pong);
    assert |handed.q.posted| == 1;
    taken := Ran(handed);
    written := Sent(taken);
  }

  function Unvisited(now: Time, timer: Option<Time>, recv: RecvPc, ddl: Time, p: Path, up: Chan, down: Chan): Conn {
    Conn(now, Client(true, Receiving, false, false, timer),
         Server(true, recv, NoVisit, false, false, false, Some(ddl), p), up, down)
  }

  lemma NoSteps(latency: Time, now: Time)
    ensures Prompted(latency, now, [], Opened(now))
  {
  }

  lemma Started(latency: Time, now: Time, hello: Msg) returns (es: seq<Event>)
    requires hello.WorkerHello? && Outbox(Start()) == []
    ensures Prompted(latency, now, es,
              Unvisited(now, Some(now + PING_AFTER), Parked, now + IDLE_LIMIT, Start(), EMPTY_CHAN, EMPTY_CHAN))
  {
    hide Prompted, Start;
    var k0 := Opened(now);
    NoSteps(latency, now);
    var c := Client(true, Receiving, false, false, Some(now + PING_AFTER));
    var k1 := Conn(now, c, NEW_SERVER, Chan([hello], [now], []), EMPTY_CHAN);
    PromptMore(latency, now, [], k0, SendHello(hello), k1);
    es := [] + [SendHello(hello)];
    var k2 := Unvisited(now, Some(now + PING_AFTER), Parked, now + IDLE_LIMIT, Start(), EMPTY_CHAN, EMPTY_CHAN);
    PromptMore(latency, now, es, k1, Accept(hello), k2);
    es := es + [Accept(hello)];
  }

  /** Twenty seconds later the client's ping is at the server and about to be answered. */
  lemma FirstPing(latency: Time, now: Time, hello: Msg, idle: Path, handed: Path) returns (es: seq<Event>)
    requires hello.WorkerHello? && Start().q.posted != [] && idle == Ran(Start())
    requires Outbox(Start()) == [] && Outbox(idle) == []
    requires handed == Handed(idle, Receiver, Pong) && CallCount(idle) == 0
    ensures Prompted(latency, now, es,
              Unvisited(now + PING_AFTER, None, Providing(0), now + IDLE_LIMIT, handed, EMPTY_CHAN, EMPTY_CHAN))
  {
    es := Started(latency, now, hello);
    hide Prompted, Start, Ran, Handed, Outbox, CallCount;
    var later := now + PING_AFTER;
    var ddl := now + IDLE_LIMIT;
    var k0 := Unvisited(now, Some(later), Parked, ddl, Start(), EMPTY_CHAN, EMPTY_CHAN);
    var k1 := Unvisited(now, Some(later), Parked, ddl, idle, EMPTY_CHAN, EMPTY_CHAN);
    PromptMore(latency, now, es, k0, RunQueue, k1);
    es := es + [RunQueue];
    var k2 := Unvisited(later, Some(later), Parked, ddl, idle, EMPTY_CHAN, EMPTY_CHAN);
    PromptMore(latency, now, es, k1, Tick(PING_AFTER), k2);
    es := es + [Tick(PING_AFTER)];
    var k3 := Unvisited(later, None, Parked, ddl, idle, Chan([Ping], [later], []), EMPTY_CHAN);
    PromptMore(latency, now, es, k2, ClientPing, k3);
    es := es + [ClientPing];
    var k4 := Unvisited(later, None, Providing(0), ddl, handed, EMPTY_CHAN, EMPTY_CHAN);
    PromptMore(latency, now, es, k3, ServerRecv(Ping), k4);
    es := es + [ServerRecv(Ping)];
  }

  /** The ping is answered at once, and the deadline set anew. */
  lemma FirstPong(latency: Time, now: Time, es0: seq<Event>, at: Time, ddl: Time, handed: Path, taken: Path,
      written: Path) returns (es: seq<Event>)
    requires Prompted(latency, now, es0, Unvisited(at, None, Providing(0), ddl, handed, EMPTY_CHAN, EMPTY_CHAN))
    requires handed.q.posted != [] && taken == Ran(handed) && Served(taken, 0)
    requires CanSend(taken) && NextMessage(taken) == Pong && written == Sent(taken)
    ensures Prompted(latency, now, es,
              Unvisited(at, None, Parked, at + IDLE_LIMIT, written, EMPTY_CHAN, Chan([Pong], [at], [])))
  {
    hide Prompted, Ran, Served, CanSend, NextMessage, Sent;
    var k0 := Unvisited(at, None, Providing(0), ddl, handed, EMPTY_CHAN, EMPTY_CHAN);
    var k1 := Unvisited(at, None, Providing(0), ddl, taken, EMPTY_CHAN, EMPTY_CHAN);
    PromptMore(latency, now, es0, k0, RunQueue, k1);
    es := es0 + [RunQueue];
    var k2 := Unvisited(at, None, Parked, at + IDLE_LIMIT, taken, EMPTY_CHAN, EMPTY_CHAN);
    PromptMore(latency, now, es, k1, ServerAnswered, k2);
    es := es + [ServerAnswered];
    var k3 := Unvisited(at, None, Parked, at + IDLE_LIMIT, written, EMPTY_CHAN, Chan([Pong], [at], []));
    PromptMore(latency, now, es, k2, ServerSend, k3);
    es := es + [ServerSend];
  }

  /** The pong travels for twenty seconds, the timer runs for twenty, and the next ping travels for twenty. */
  lemma SlowFrames(latency: Time, now: Time, es0: seq<Event>, at: Time, p: Path)
      returns (es: seq<Event>, k: Conn)
    requires LATENCY < latency && Outbox(p) == []
    requires Prompted(latency, now, es0,
               Unvisited(at, None, Parked, at + IDLE_LIMIT, p, EMPTY_CHAN, Chan([Pong], [at], [])))
    ensures Prompted(latency, now, es, k) && Expires(k)
  {
    hide Prompted, Outbox;
    var ddl, t1, t2, t3 := at + IDLE_LIMIT, at + LATENCY, at + 2 * LATENCY, at + 3 * LATENCY;
    var k0 := Unvisited(at, None, Parked, ddl, p, EMPTY_CHAN, Chan([Pong], [at], []));
    var k1 := Unvisited(t1, None, Parked, ddl, p, EMPTY_CHAN, Chan([Pong], [at], []));
    PromptMore(latency, now, es0, k0, Tick(LATENCY), k1);
    es := es0 + [Tick(LATENCY)];
    var k2 := Unvisited(t1, Some(t2), Parked, ddl, p, EMPTY_CHAN, EMPTY_CHAN);
    PromptMore(latency, now, es, k1, ClientRecv(Pong), k2);
    es := es + [ClientRecv(Pong)];
    var k3 := Unvisited(t2, Some(t2), Parked, ddl, p, EMPTY_CHAN, EMPTY_CHAN);
    PromptMore(latency, now, es, k2, Tick(LATENCY), k3);
    es := es + [Tick(LATENCY)];
    var k4 := Unvisited(t2, None, Parked, ddl, p, Chan([Ping], [t2], []), EMPTY_CHAN);
    PromptMore(latency, now, es, k3, ClientPing, k4);
    es := es + [ClientPing];
    k := Unvisited(t3, None, Parked, ddl, p, Chan([Ping], [t2], []), EMPTY_CHAN);
    PromptMore(latency, now, es, k4, Tick(LATENCY), k);
    es := es + [Tick(LATENCY)];
  }

  /** A latency above twenty seconds, by however little, lets the deadline stop a worker that answers every ping. */
  lemma SlowerMayExpire(latency: Time, now: Time) returns (es: seq<Event>)
    requires LATENCY < latency
    ensures IsRun(Opened(now), es) && PromptRun(latency, Opened(now), es) && Expires(After(Opened(now), es))
  {
    var idle, handed, taken, written := OnePong();
    hide *;
    es := FirstPing(latency, now, WorkerHello("", 0), idle, handed);
    es := FirstPong(latency, now, es, now + PING_AFTER, now + IDLE_LIMIT, handed, taken, written);
    var k;
    es, k := SlowFrames(latency, now, es, now + PING_AFTER, written);
    PromptedMeans(latency, now, es, k);
  }

  lemma PromptedMeans(latency: Time, now: Time, es: seq<Event>, k: Conn)
    requires Prompted(latency, now, es, k)
    ensures IsRun(Opened(now), es) && PromptRun(latency, Opened(now), es) && After(Opened(now), es) == k
  {
  }

  ghost predicate SafeIn(latency: Time, now: Time, es: seq<Event>) {
    IsRun(Opened(now), es) && PromptRun(latency, Opened(now), es) ==> !Expires(After(Opened(now), es))
  }

  /** Frames that take less than `latency` keep every unvisited worker alive exactly up to twenty seconds. */
  lemma TwentySecondsExactly(latency: Time, now: Time)
    ensures (forall es: seq<Event> :: SafeIn(latency, now, es)) <==> latency <= LATENCY
  {
    hide Opened, Expires, IsRun, After, PromptRun;
    if latency <= LATENCY {
      forall es: seq<Event> ensures SafeIn(latency, now, es) {
        if IsRun(Opened(now), es) && PromptRun(latency, Opened(now), es) {
          DeadlineNeverExpires(latency, now, es);
        }
      }
    } else {
      var es := SlowerMayExpire(latency, now);
      assert !SafeIn(latency, now, es);
    }
  }

  // ---- The deadline is honest -----------------------------------------------

  /** The steps that set the worker's deadline anew or remove it. */
  predicate SetsDeadline(e: Event) {
    e.Accept? || e.ServerAnswered? || e.VisitStart? || (e.VisitRecv? && e.m.VisitConfirmed?)
  }

  lemma {:induction false} DeadlineStands(k: Conn, es: seq<Event>)
    requires IsRun(k, es) && forall e <- es :: !SetsDeadline(e)
    ensures var k' := After(k, es); k'.server.ddl == k.server.ddl || k'.server.ddl == None
    decreases |es|
  {
    hide Enabled;
    if es != [] {
      assert es[0] in es;
      assert Apply(k, es[0]).server.ddl == k.server.ddl || Apply(k, es[0]).server.ddl == None;
      hide Apply;
      DeadlineStands(Apply(k, es[0]), es[1..]);
    }
  }

  /** How long a step that sets the deadline gives the worker: sixty seconds for a message, twenty for a visit. */
  function Allowance(e: Event): Time { if e.VisitStart? then VISIT_LIMIT else IDLE_LIMIT }

  /**
   After a step that sets the deadline, and until another one does, the deadline
   expires on a running worker exactly when its allowance has passed since, however
   often the timer woke up in between; and never once it was removed.
   */
  lemma DeadlineMeansSilence(k: Conn, e: Event, es: seq<Event>)
    requires Enabled(k, e) && (e.Accept? || e.ServerAnswered? || e.VisitStart?)
    requires IsRun(Apply(k, e), es) && forall f <- es :: !SetsDeadline(f)
    ensures var k' := After(Apply(k, e), es);
            Enabled(k', Deadline) <==>
              && k'.server.alive && !k'.server.stopping && !k'.server.confirmed
              && k'.server.ddl.Some? && k'.now >= k.now + Allowance(e)
  {
    assert Apply(k, e).server.ddl == Some(k.now + Allowance(e));
    DeadlineStands(Apply(k, e), es);
    hide Apply, IsRun, After;
  }

  /** The steps that arm the client's timer. */
  predicate ArmsTimer(e: Event) { e.SendHello? || (e.ClientRecv? && e.m.Pong?) }

  /** A visit apart, only a ping or a new arming changes the timer. */
  lemma {:induction false} TimerStands(k: Conn, es: seq<Event>)
    requires IsRun(k, es) && forall e <- es :: !ArmsTimer(e) && !e.ClientPing?
    ensures var k' := After(k, es); k'.client.timer == k.client.timer || k'.client.visited
    decreases |es|
  {
    hide Enabled;
    if es != [] {
      assert es[0] in es;
      var m := Apply(k, es[0]);
      assert m.client.timer == k.client.timer || m.client.visited;
      assert k.client.visited ==> m.client.visited;
      hide Apply;
      if m.client.visited {
        VisitedStays(m, es[1..]);
      } else {
        TimerStands(m, es[1..]);
      }
    }
  }

  lemma {:induction false} VisitedStays(k: Conn, es: seq<Event>)
    requires IsRun(k, es) && k.client.visited
    ensures After(k, es).client.visited
    decreases |es|
  {
    hide Enabled;
    if es != [] {
      assert Apply(k, es[0]).client.visited;
      hide Apply;
      VisitedStays(Apply(k, es[0]), es[1..]);
    }
  }

  /**
   After a step that arms the client's timer, and until it is armed again or a ping is
   sent, a client that is up and not visited can send a ping exactly when twenty seconds
   have passed since, however long ago they passed.
   */
  lemma PingMeansSilence(k: Conn, e: Event, es: seq<Event>)
    requires Enabled(k, e) && ArmsTimer(e)
    requires IsRun(Apply(k, e), es) && forall f <- es :: !ArmsTimer(f) && !f.ClientPing?
    ensures var k' := After(Apply(k, e), es);
            Enabled(k', ClientPing) <==>
              k'.client.alive && !k'.client.stopping && !k'.client.visited && k'.now >= k.now + PING_AFTER
  {
    assert Apply(k, e).client.timer == Some(k.now + PING_AFTER);
    TimerStands(Apply(k, e), es);
    hide Apply, IsRun, After;
  }

  lemma DeadlineInVisit(k: Conn)
    requires Reachable(k) && Enabled(k, Deadline) && k.server.visited && k.client.alive
    ensures InVisit(Apply(k, Deadline)) && Apply(k, Deadline).server.stopping && Apply(k, Deadline).server.alive
  {
    assert Apply(k, Deadline) == k.(server := k.server.(stopping := true));
    StepInv(k, Deadline);
    InvPath(k);
    StepOpens(k, Deadline);
    hide Inv, OpenInv, PathInv, Apply, Enabled;
  }

  /**
   A deadline that passes during a visit only notes that the worker is stopping: in
   every orderly run the visit goes on, and the workers' own steps still complete it.
   */
  lemma VisitDeadlineKeepsConnection(now: Time, es: seq<Event>) returns (fs: seq<Event>)
    requires IsRun(Opened(now), es) && OrderlyRun(Opened(now), es)
    requires var k := After(Opened(now), es); Enabled(k, Deadline) && k.server.visited && k.client.alive
    ensures var k := Apply(After(Opened(now), es), Deadline);
            && k.server.stopping && k.server.alive
            && IsRun(k, fs) && OrderlyRun(k, fs) && (forall e <- fs :: Own(e)) && Complete(After(k, fs))
  {
    hide *;
    RunReaches(now, es);
    var k := After(Opened(now), es);
    DeadlineInVisit(k);
    fs := VisitCompletes(Apply(k, Deadline));
  }
}

/**
 One tunnel connection: the client worker and the server worker at its ends, and
 a channel in each direction that carries control messages first and raw bytes
 after them.  A step is what one coroutine does between two suspensions.
 */
module Session {
  import opened Seqs
  import opened Framing
  import opened Messages
  import opened SendPath

  /** Nanoseconds of the steady clock. */
  type Time = int

  const SECOND: Time := 1_000_000_000
  const PING_AFTER: Time := 20 * SECOND
  const IDLE_LIMIT: Time := 60 * SECOND
  const VISIT_LIMIT: Time := 20 * SECOND

  // ---- The client worker ------------------------------------------------

  /** Where the receiving coroutine is: before its hello, in its loop, past the confirmation, or given away. */
  datatype ClientPc = Fresh | Receiving | Confirmed | Piping

  datatype Client = Client(alive: bool, pc: ClientPc, visited: bool, stopping: bool, timer: Option<Time>)

  const NEW_CLIENT := Client(true, Fresh, false, false, None)

  function ClientHelloSent(c: Client, now: Time): Client {
    c.(pc := Receiving, timer := Some(now + PING_AFTER))
  }

  /** What the client does with a message, and what it sends: any message but a visit or a pong ends it. */
  function ClientOn(c: Client, m: Msg, now: Time): (Client, seq<Msg>) {
    match m
    case Pong => (c.(timer := Some(now + PING_AFTER)), [])
    case VisitTcpShare(_, _) => (c.(pc := Confirmed, visited := true, timer := None), [VisitConfirmed])
    case _ => (ClientStopped(c), [])
  }

  predicate PingDue(c: Client, now: Time) {
    c.timer.Some? && c.timer.value <= now && !c.stopping && !c.visited
  }

  function ClientStopped(c: Client): Client { c.(alive := false, stopping := true) }

  // ---- The server worker ------------------------------------------------

  /** The receiving coroutine: parked in a read at a frame boundary, handing over a pong, or over. */
  datatype RecvPc = NotAccepted | Parked | Providing(call: nat) | Ended

  /** The visit: handing over the visit message, reading until it is confirmed, returned with the socket, or failed. */
  datatype VisitPc = NoVisit | Announcing(call: nat) | Reading | Done | Failed

  datatype Server = Server(
    alive: bool, recv: RecvPc, visit: VisitPc,
    visited: bool, confirmed: bool, stopping: bool,
    ddl: Option<Time>, path: Path)

  const NEW_SERVER := Server(true, NotAccepted, NoVisit, false, false, false, None, Start())

  function Accepted(s: Server, now: Time): Server {
    s.(recv := Parked, ddl := Some(now + IDLE_LIMIT))
  }

  /** Stopping an unvisited worker closes its queue and its socket; a visited one only takes note. */
  function TryStop(s: Server): Server {
    if s.visited then s.(stopping := true)
    else s.(stopping := true, alive := false, ddl := None, path := Closed(s.path))
  }

  /**
   The sender's wait was aborted, or its write failed: it ends, and stops the worker unless
   that is visited or stopping already.
   */
  function SenderStops(s: Server): Server {
    var ended := s.(path := SenderEnded(s.path));
    if s.visited || s.stopping then ended else TryStop(ended)
  }

  /** The receiving coroutine answers a ping; anything else ends it, and stops the worker as an error does. */
  function ServerOn(s: Server, m: Msg): Server {
    if m.Ping? then s.(recv := Providing(CallCount(s.path)), path := Handed(s.path, Receiver, Pong))
    else if s.visited || s.stopping then s.(recv := Ended)
    else TryStop(s.(recv := Ended))
  }

  function Answered(s: Server, now: Time): Server {
    s.(recv := Parked, ddl := Some(now + IDLE_LIMIT))
  }

  /** The visit begins: it cancels a parked read, and hands over its announcement. */
  function Visiting(s: Server, v: Msg, now: Time): Server {
    s.(visited := true, recv := if s.recv.Parked? then Ended else s.recv, ddl := Some(now + VISIT_LIMIT),
       visit := Announcing(CallCount(s.path)), path := Handed(s.path, Visitor, v))
  }

  function Announced(s: Server): Server { s.(visit := Reading, path := Closed(s.path)) }

  /** A ping is skipped, the confirmation completes the visit, anything else fails it. */
  function VisitOn(s: Server, m: Msg): Server {
    match m
    case Ping => s
    case VisitConfirmed => s.(confirmed := true, ddl := None, visit := Done)
    case _ => s.(visit := Failed)
  }

  predicate DeadlinePassed(s: Server, now: Time) {
    s.ddl.Some? && s.ddl.value <= now && !s.stopping && !s.confirmed
  }

  // ---- The connection ----------------------------------------------------

  datatype Dir = Up | Down

  /** Control messages with the times they were sent, then raw bytes. */
  datatype Chan = Chan(frames: seq<Msg>, stamps: seq<Time>, raw: Bytes)

  const EMPTY_CHAN := Chan([], [], [])

  datatype Conn = Conn(now: Time, client: Client, server: Server, up: Chan, down: Chan)

  datatype Event =
    | Tick(d: Time)
    | SendHello(hello: Msg)
    | ClientRecv(m: Msg)
    | ClientPing
    | ClientPipe
    | ClientFail
    | Accept(hello: Msg)
    | ServerRecv(m: Msg)
    | ServerAnswered
    | RunQueue
    | ServerSend
    | SenderEnds
    | VisitStart(v: Msg)
    | VisitAnnounced
    | VisitRecv(m: Msg)
    | Deadline
    | ServerStop
    | ServerFail
    | PutRaw(dir: Dir, bs: Bytes)
    | TakeRaw(dir: Dir, bs: Bytes)

  function Opened(now: Time): Conn { Conn(now, NEW_CLIENT, NEW_SERVER, EMPTY_CHAN, EMPTY_CHAN) }

  /** Whether the coroutine of the step is at the point where it can take it; the channels are looked at elsewhere. */
  predicate Ready(c: Client, s: Server, now: Time, e: Event) {
    match e
    case Tick(d) => 0 < d
    case SendHello(hello) => c.alive && c.pc.Fresh? && hello.WorkerHello?
    case ClientRecv(_) => c.alive && c.pc.Receiving?
    case ClientPing => c.alive && PingDue(c, now)
    case ClientPipe => c.alive && c.pc.Confirmed?
    case ClientFail => c.alive
    case Accept(hello) => s.alive && s.recv.NotAccepted? && hello.WorkerHello?
    case ServerRecv(_) => s.alive && s.recv.Parked?
    case ServerAnswered => s.alive && s.recv.Providing? && Served(s.path, s.recv.call)
    case RunQueue => s.path.q.posted != []
    case ServerSend => s.alive && CanSend(s.path)
    case SenderEnds => SenderAborted(s.path) || (WriteFails(s.path, s.alive) && !s.visited)
    case VisitStart(v) => s.alive && !s.recv.NotAccepted? && s.visit.NoVisit? && v.VisitTcpShare?
    case VisitAnnounced => s.alive && s.visit.Announcing? && Served(s.path, s.visit.call)
    case VisitRecv(_) => s.alive && s.visit.Reading?
    case Deadline => s.alive && DeadlinePassed(s, now)
    case ServerStop => s.alive
    case ServerFail => s.alive
    case PutRaw(Up, _) => c.alive && c.pc.Piping?
    case PutRaw(Down, _) => s.alive && s.visit.Done?
    case TakeRaw(Up, bs) => s.alive && s.visit.Done? && bs != []
    case TakeRaw(Down, bs) => c.alive && c.pc.Piping? && bs != []
  }

  function ClientAfter(c: Client, now: Time, e: Event): Client {
    match e
    case SendHello(_) => ClientHelloSent(c, now)
    case ClientRecv(m) => ClientOn(c, m, now).0
    case ClientPing => c.(timer := None)
    case ClientPipe => c.(pc := Piping)
    case ClientFail => ClientStopped(c)
    case _ => c
  }

  function ServerAfter(s: Server, now: Time, e: Event): Server
    requires e.RunQueue? ==> s.path.q.posted != []
    requires e.ServerSend? ==> CanSend(s.path)
  {
    match e
    case Accept(_) => Accepted(s, now)
    case ServerRecv(m) => ServerOn(s, m)
    case ServerAnswered => Answered(s, now)
    case RunQueue => s.(path := Ran(s.path))
    case ServerSend => s.(path := Sent(s.path))
    case SenderEnds => SenderStops(s)
    case VisitStart(v) => Visiting(s, v, now)
    case VisitAnnounced => Announced(s)
    case VisitRecv(m) => VisitOn(s, m)
    case Deadline => TryStop(s)
    case ServerStop => TryStop(s)
    case ServerFail => s.(alive := false)
    case _ => s
  }

  // What a step takes from a channel and what it puts into one.

  datatype Item = Nothing | Message(m: Msg) | Raw(bs: Bytes)

  function Taken(e: Event, dir: Dir): Item {
    match e
    case ClientRecv(m) => if dir == Down then Message(m) else Nothing
    case Accept(m) => if dir == Up then Message(m) else Nothing
    case ServerRecv(m) => if dir == Up then Message(m) else Nothing
    case VisitRecv(m) => if dir == Up then Message(m) else Nothing
    case TakeRaw(d, bs) => if d == dir then Raw(bs) else Nothing
    case _ => Nothing
  }

  function Given(s: Server, e: Event, dir: Dir): Item
    requires e.ServerSend? ==> CanSend(s.path)
  {
    match e
    case SendHello(hello) => if dir == Up then Message(hello) else Nothing
    case ClientRecv(m) => if dir == Up && m.VisitTcpShare? then Message(VisitConfirmed) else Nothing
    case ClientPing => if dir == Up then Message(Ping) else Nothing
    case ServerSend => if dir == Down then Message(NextMessage(s.path)) else Nothing
    case PutRaw(d, bs) => if d == dir then Raw(bs) else Nothing
    case _ => Nothing
  }

  predicate CanTake(ch: Chan, x: Item) {
    match x
    case Nothing => true
    case Message(m) => ch.frames != [] && ch.stamps != [] && ch.frames[0] == m
    case Raw(bs) => ch.frames == [] && bs <= ch.raw
  }

  function Take(ch: Chan, x: Item): Chan
    requires CanTake(ch, x)
  {
    match x
    case Nothing => ch
    case Message(_) => ch.(frames := ch.frames[1..], stamps := ch.stamps[1..])
    case Raw(bs) => ch.(raw := ch.raw[|bs|..])
  }

  function PutIn(ch: Chan, x: Item, now: Time): Chan {
    match x
    case Nothing => ch
    case Message(m) => ch.(frames := ch.frames + [m], stamps := ch.stamps + [now])
    case Raw(bs) => ch.(raw := ch.raw + bs)
  }

  predicate Enabled(k: Conn, e: Event) {
    && Ready(k.client, k.server, k.now, e)
    && CanTake(k.up, Taken(e, Up)) && CanTake(k.down, Taken(e, Down))
  }

  function Apply(k: Conn, e: Event): Conn
    requires Enabled(k, e)
  {
    Conn(
      if e.Tick? then k.now + e.d else k.now,
      ClientAfter(k.client, k.now, e),
      ServerAfter(k.server, k.now, e),
      PutIn(Take(k.up, Taken(e, Up)), Given(k.server, e, Up), k.now),
      PutIn(Take(k.down, Taken(e, Down)), Given(k.server, e, Down), k.now))
  }

  /** The visit begins while the receiving coroutine is parked, so that it has nothing half done. */
  ghost predicate Orderly(k: Conn, e: Event) {
    e.VisitStart? ==> k.server.recv.Parked?
  }

  ghost predicate IsRun(k: Conn, es: seq<Event>)
    decreases |es|
  {
    es == [] || (Enabled(k, es[0]) && IsRun(Apply(k, es[0]), es[1..]))
  }

  ghost function After(k: Conn, es: seq<Event>): Conn
    requires IsRun(k, es)
    decreases |es|
  {
    if es == [] then k else After(Apply(k, es[0]), es[1..])
  }

  ghost predicate OrderlyRun(k: Conn, es: seq<Event>)
    requires IsRun(k, es)
    decreases |es|
  {
    es == [] || (Orderly(k, es[0]) && OrderlyRun(Apply(k, es[0]), es[1..]))
  }

  /** One more step at the end of a run. */
  lemma {:induction false} Extend(k: Conn, es: seq<Event>, e: Event)
    requires IsRun(k, es) && Enabled(After(k, es), e)
    ensures IsRun(k, es + [e]) && After(k, es + [e]) == Apply(After(k, es), e)
    ensures OrderlyRun(k, es + [e]) <==> OrderlyRun(k, es) && Orderly(After(k, es), e)
    decreases |es|
  {
    hide Enabled, Apply, Orderly;
    if es == [] {
      assert es + [e] == [e] && [e][1..] == [];
    } else {
      Extend(Apply(k, es[0]), es[1..], e);
      assert (es + [e])[1..] == es[1..] + [e];
    }
  }

  /** One run after another. */
  lemma {:induction false} RunsJoin(k: Conn, es: seq<Event>, fs: seq<Event>)
    requires IsRun(k, es) && IsRun(After(k, es), fs)
    ensures IsRun(k, es + fs) && After(k, es + fs) == After(After(k, es), fs)
    decreases |es|
  {
    hide Enabled, Apply;
    if es == [] {
      assert es + fs == fs;
    } else {
      RunsJoin(Apply(k, es[0]), es[1..], fs);
      assert (es + fs)[1..] == es[1..] + fs;
    }
  }

  // ---- What every orderly run keeps ---------------------------------------

  /** The hello is sent and not yet read. */
  predicate HelloPending(k: Conn) { k.server.recv.NotAccepted? && !k.client.pc.Fresh? }

  /** The messages to the server after its hello. */
  function UpLine(k: Conn): seq<Msg> {
    if HelloPending(k) && k.up.frames != [] then k.up.frames[1..] else k.up.frames
  }

  /** The messages to the client: on the wire, then handed over but not yet written. */
  function DownLine(k: Conn): seq<Msg> { k.down.frames + Outbox(k.server.path) }

  predicate ConfirmPending(k: Conn) { k.client.visited && !k.server.visit.Done? }

  predicate VisitPending(k: Conn) { k.server.visited && !k.client.visited }

  function One(b: bool): int { if b then 1 else 0 }

  function PingsInFlight(k: Conn): int { |UpLine(k)| - One(ConfirmPending(k)) }

  function PongsInFlight(k: Conn): int { |DownLine(k)| - One(VisitPending(k)) }

  predicate TimerArmed(k: Conn) { k.client.timer.Some? }

  /** The program positions agree with the flags, and with each other. */
  ghost predicate Positions(k: Conn) {
    var c, s := k.client, k.server;
    && (c.visited <==> c.pc.Confirmed? || c.pc.Piping?)
    && (c.timer.Some? ==> c.pc.Receiving?)
    && (s.visited <==> !s.visit.NoVisit?)
    && (s.confirmed <==> s.visit.Done?) && !s.visit.Failed?
    && (s.recv.NotAccepted? ==> !s.visited)
    && (s.visited ==> s.recv.Ended?)
    && (s.recv.Ended? && s.alive ==> s.visited)
    && (s.stopping && s.alive ==> s.visited)
    && (!s.path.senderAlive ==> s.path.q.abortedWaits != [] || (!s.alive && !s.visited))
    && (s.stopping && !s.visited ==> s.path.q.closed)
    && (c.pc.Fresh? ==> s.recv.NotAccepted?)
    && (c.visited ==> s.visited)
    && (s.visit.Done? ==> c.visited)
    && (s.recv.Providing? ==> s.recv.call + 1 == CallCount(s.path))
    && (s.visit.Announcing? ==> s.visit.call + 1 == CallCount(s.path))
    && (s.visit.Reading? || s.visit.Done? ==> |s.path.q.served| == CallCount(s.path))
  }

  /** Towards the server: the hello, at most one ping, then the confirmation; raw bytes only behind all of them. */
  ghost predicate UpShape(k: Conn) {
    var n := PingsInFlight(k);
    && |k.up.stamps| == |k.up.frames|
    && (HelloPending(k) ==> k.up.frames != [] && k.up.frames[0].WorkerHello?)
    && 0 <= n <= 1
    && (n == 1 ==> UpLine(k)[0] == Ping)
    && (ConfirmPending(k) ==> UpLine(k)[n] == VisitConfirmed)
    && (k.up.raw != [] ==> k.client.pc.Piping?)
    && (k.client.pc.Fresh? ==> k.up.frames == [])
    && (k.server.visit.Done? ==> k.up.frames == [])
  }

  /** Towards the client: at most one pong, then the visit; raw bytes only after the confirmation was read. */
  ghost predicate DownShape(k: Conn) {
    var n := PongsInFlight(k);
    && |k.down.stamps| == |k.down.frames|
    && 0 <= n <= 1
    && (n == 1 ==> DownLine(k)[0] == Pong)
    && (VisitPending(k) ==> DownLine(k)[n].VisitTcpShare?)
    && (k.down.raw != [] ==> k.server.visit.Done?)
    && (k.client.visited || k.server.recv.NotAccepted? ==> DownLine(k) == [])
  }

  /** There is one ping token: in the timer, in a ping, or in a pong; a visit may swallow it. */
  ghost predicate OneToken(k: Conn) {
    var n := One(TimerArmed(k)) + PingsInFlight(k) + PongsInFlight(k);
    if k.client.pc.Fresh? then n == 0
    else if !k.server.visited then n == 1
    else n <= 1
  }

  ghost predicate Inv(k: Conn) {
    PathInv(k.server.path) && Positions(k) && UpShape(k) && DownShape(k) && OneToken(k)
  }

  lemma OpenedInv(now: Time)
    ensures Inv(Opened(now))
  {
    StartInv();
    assert DownLine(Opened(now)) == [];
  }

  // One step at a time.

  lemma SendHelloInv(k: Conn, m: Msg)
    requires Inv(k) && Enabled(k, SendHello(m))
    ensures Inv(Apply(k, SendHello(m)))
  {
    hide PathInv, Outbox;
    var k' := Apply(k, SendHello(m));
    assert k'.up.frames == [m] && UpLine(k') == [];
    assert DownLine(k') == DownLine(k);
  }

  /** The client only ever sees pongs and the visit. */
  lemma ClientSees(k: Conn, m: Msg)
    requires Inv(k) && Enabled(k, ClientRecv(m))
    ensures DownLine(k) != [] && DownLine(k)[0] == m && !k.client.visited
    ensures m.Pong? || m.VisitTcpShare?
    ensures m.Pong? ==> PongsInFlight(k) == 1
    ensures m.VisitTcpShare? ==> VisitPending(k) && DownLine(k) == [m]
  {
    hide PathInv, Outbox;
  }

  /** The client read a pong: the token went from the line to the timer. */
  lemma PongRead(k: Conn, t: Time, ch: Chan)
    requires Inv(k) && k.client.pc.Receiving? && PongsInFlight(k) == 1
    requires k.down.frames != [] && ch == k.down.(frames := k.down.frames[1..], stamps := ch.stamps)
    requires |ch.stamps| == |ch.frames|
    ensures Inv(k.(client := k.client.(timer := Some(t)), down := ch))
  {
    hide PathInv, Outbox;
    var k' := k.(client := k.client.(timer := Some(t)), down := ch);
    assert DownLine(k') == DownLine(k)[1..];
    hide DownLine;
    assert UpLine(k') == UpLine(k);
  }

  lemma ClientPongInv(k: Conn)
    requires Inv(k) && Enabled(k, ClientRecv(Pong))
    ensures Inv(Apply(k, ClientRecv(Pong)))
  {
    ClientSees(k, Pong);
    hide PathInv, Outbox, UpLine, DownLine, PongsInFlight, Positions, OneToken, UpShape;
    var ch := k.down.(frames := k.down.frames[1..], stamps := k.down.stamps[1..]);
    assert Apply(k, ClientRecv(Pong)) == k.(client := k.client.(timer := Some(k.now + PING_AFTER)), down := ch);
    hide Apply, Enabled;
    PongRead(k, k.now + PING_AFTER, ch);
  }

  /** The client read the visit and answered it: no control message remains on the line to it. */
  lemma VisitTaken(k: Conn, c: Client, up: Chan, down: Chan)
    requires Inv(k) && k.client.pc.Receiving? && VisitPending(k) && |DownLine(k)| == 1 && |k.down.frames| == 1
    requires c == k.client.(pc := Confirmed, visited := true, timer := None)
    requires up == k.up.(frames := k.up.frames + [VisitConfirmed], stamps := up.stamps) && |up.stamps| == |up.frames|
    requires down == k.down.(frames := [], stamps := [])
    ensures Inv(k.(client := c, up := up, down := down))
  {
    hide PathInv, Outbox;
    var k' := k.(client := c, up := up, down := down);
    assert Outbox(k.server.path) == [] by { assert |DownLine(k)| == 1 + |Outbox(k.server.path)|; }
    assert DownLine(k') == [];
    hide DownLine;
    assert UpLine(k') == UpLine(k) + [VisitConfirmed];
  }

  lemma ClientVisitInv(k: Conn, m: Msg)
    requires Inv(k) && Enabled(k, ClientRecv(m)) && m.VisitTcpShare?
    ensures Inv(Apply(k, ClientRecv(m)))
  {
    ClientSees(k, m);
    hide PathInv, Outbox, Positions, OneToken, UpLine;
    var k' := Apply(k, ClientRecv(m));
    assert |k.down.frames| == 1 by { assert |DownLine(k)| == |k.down.frames| + |Outbox(k.server.path)|; }
    assert k' == k.(client := k.client.(pc := Confirmed, visited := true, timer := None),
                    up := k.up.(frames := k.up.frames + [VisitConfirmed], stamps := k'.up.stamps),
                    down := k.down.(frames := [], stamps := []));
    hide Apply, Enabled, DownLine;
    VisitTaken(k, k'.client, k'.up, k'.down);
  }

  lemma ClientPingInv(k: Conn)
    requires Inv(k) && Enabled(k, ClientPing)
    ensures Inv(Apply(k, ClientPing))
  {
    hide PathInv, Outbox;
    var k' := Apply(k, ClientPing);
    assert k'.up.frames == k.up.frames + [Ping];
    assert UpLine(k') == UpLine(k) + [Ping];
    assert DownLine(k') == DownLine(k);
  }

  /** Time passed, the client gave its socket away, or it failed. */
  lemma ClientMoves(k: Conn, now: Time, c: Client)
    requires Inv(k)
    requires c == k.client.(alive := c.alive, stopping := c.stopping, pc := c.pc)
    requires c.pc == k.client.pc || (k.client.pc.Confirmed? && c.pc.Piping?)
    ensures Inv(k.(now := now, client := c))
  {
    hide PathInv, Outbox, CallCount;
    var k' := k.(now := now, client := c);
    assert UpLine(k') == UpLine(k);
    assert DownLine(k') == DownLine(k);
    hide UpLine, DownLine;
  }

  lemma ClientElseInv(k: Conn, e: Event)
    requires Inv(k) && Enabled(k, e) && (e.Tick? || e.ClientPipe? || e.ClientFail?)
    ensures Inv(Apply(k, e))
  {
    var now := if e.Tick? then k.now + e.d else k.now;
    var c := ClientAfter(k.client, k.now, e);
    assert Apply(k, e) == k.(now := now, client := c);
    assert e.ClientPipe? ==> k.client.pc.Confirmed?;
    hide Inv, Apply, Enabled;
    ClientMoves(k, now, c);
  }

  lemma RawMoves(k: Conn, up: Bytes, down: Bytes)
    requires Inv(k)
    requires up != [] ==> k.client.pc.Piping?
    requires down != [] ==> k.server.visit.Done?
    ensures Inv(k.(up := k.up.(raw := up), down := k.down.(raw := down)))
  {
    hide PathInv, Outbox;
    var k' := k.(up := k.up.(raw := up), down := k.down.(raw := down));
    assert UpLine(k') == UpLine(k);
    assert DownLine(k') == DownLine(k);
  }

  lemma RawInv(k: Conn, e: Event)
    requires Inv(k) && Enabled(k, e) && (e.PutRaw? || e.TakeRaw?)
    ensures Inv(Apply(k, e))
  {
    RawEffect(k, e);
    var k' := Apply(k, e);
    hide *;
    RawMoves(k, k'.up.raw, k'.down.raw);
  }

  lemma RawEffect(k: Conn, e: Event)
    requires Inv(k) && Enabled(k, e) && (e.PutRaw? || e.TakeRaw?)
    ensures var k' := Apply(k, e);
            && k' == k.(up := k.up.(raw := k'.up.raw), down := k.down.(raw := k'.down.raw))
            && (k'.up.raw != [] ==> k.client.pc.Piping?)
            && (k'.down.raw != [] ==> k.server.visit.Done?)
  {
    hide PathInv, Outbox, Positions, OneToken, UpLine, DownLine;
  }

  lemma AcceptInv(k: Conn, hello: Msg)
    requires Inv(k) && Enabled(k, Accept(hello))
    ensures Inv(Apply(k, Accept(hello)))
  {
    hide PathInv, Outbox;
    var k' := Apply(k, Accept(hello));
    assert k'.server.path == k.server.path;
    assert UpLine(k') == k'.up.frames == UpLine(k);
    assert DownLine(k') == DownLine(k);
  }

  /** The server worker's own loop only ever sees pings. */
  lemma ServerSees(k: Conn, m: Msg)
    requires Inv(k) && Enabled(k, ServerRecv(m))
    ensures UpLine(k) == k.up.frames && k.up.frames == [m] && m.Ping? && !k.server.visited && DownLine(k) == []
  {
    hide PathInv, Outbox;
  }

  lemma ServerRecvInv(k: Conn, m: Msg)
    requires Inv(k) && Enabled(k, ServerRecv(m))
    ensures Inv(Apply(k, ServerRecv(m)))
  {
    ServerSees(k, m);
    HandedInv(k.server.path, Receiver, Pong);
    hide PathInv, Outbox, Handed, CallCount;
    var k' := Apply(k, ServerRecv(m));
    assert k'.server.path == Handed(k.server.path, Receiver, Pong);
    assert UpLine(k') == [];
    assert DownLine(k') == DownLine(k) + [Pong];
  }

  lemma ServerAnsweredInv(k: Conn)
    requires Inv(k) && Enabled(k, ServerAnswered)
    ensures Inv(Apply(k, ServerAnswered))
  {
    hide PathInv, Outbox;
    var k' := Apply(k, ServerAnswered);
    assert k'.server.path == k.server.path && k'.up == k.up && k'.down == k.down;
  }

  /** The send path moved on without a new call: messages may have gone from it to the wire. */
  lemma PathMoves(k: Conn, p: Path, ch: Chan)
    requires Inv(k) && PathInv(p) && CallCount(p) == CallCount(k.server.path) && SenderStays(k.server.path, p)
    requires |k.server.path.q.served| <= |p.q.served| <= CallCount(p)
    requires ch.frames + Outbox(p) == DownLine(k) && ch.raw == k.down.raw && |ch.stamps| == |ch.frames|
    ensures Inv(k.(server := k.server.(path := p), down := ch))
  {
    hide PathInv, Outbox, CallCount;
    var k' := k.(server := k.server.(path := p), down := ch);
    assert DownLine(k') == DownLine(k);
  }

  lemma RunQueueInv(k: Conn)
    requires Inv(k) && Enabled(k, RunQueue)
    ensures Inv(Apply(k, RunQueue))
  {
    var p' := Ran(k.server.path);
    RanInv(k.server.path);
    Bounds(p');
    assert Apply(k, RunQueue) == k.(server := k.server.(path := p'), down := k.down);
    hide PathInv, Outbox, Ran, Apply, Enabled;
    PathMoves(k, p', k.down);
  }

  lemma Regroup<T>(a: seq<T>, o: seq<T>)
    requires o != []
    ensures (a + [o[0]]) + o[1..] == a + o
  {
  }

  lemma ServerSendInv(k: Conn)
    requires Inv(k) && Enabled(k, ServerSend)
    ensures Inv(Apply(k, ServerSend))
  {
    var p, p' := k.server.path, Sent(k.server.path);
    SentInv(p);
    Bounds(p');
    var ch := Chan(k.down.frames + [Outbox(p)[0]], k.down.stamps + [k.now], k.down.raw);
    Regroup(k.down.frames, Outbox(p));
    assert |ch.stamps| == |ch.frames|;
    assert NextMessage(p) == Outbox(p)[0];
    hide PathInv, Outbox, Positions, UpShape, DownShape, OneToken, UpLine, DownLine, Sent, CanSend, NextMessage;
    assert Apply(k, ServerSend) == k.(server := k.server.(path := p'), down := ch);
    hide PathInv, Outbox, Sent, CanSend, NextMessage, Apply, Enabled, CallCount;
    PathMoves(k, p', ch);
  }

  lemma VisitBegins(k: Conn, v: Msg, s: Server)
    requires Inv(k) && k.server.alive && k.server.recv.Parked? && !k.server.visited && v.VisitTcpShare?
    requires PathInv(s.path) && Outbox(s.path) == Outbox(k.server.path) + [v]
    requires CallCount(s.path) == CallCount(k.server.path) + 1 && SenderStays(k.server.path, s.path)
    requires s == k.server.(visited := true, recv := Ended, ddl := s.ddl,
                            visit := Announcing(CallCount(k.server.path)), path := s.path)
    ensures Inv(k.(server := s))
  {
    hide PathInv, Outbox, CallCount;
    var k' := k.(server := s);
    assert UpLine(k') == UpLine(k);
    assert DownLine(k') == DownLine(k) + [v];
  }

  lemma VisitStartInv(k: Conn, v: Msg)
    requires Inv(k) && Enabled(k, VisitStart(v)) && Orderly(k, VisitStart(v))
    ensures Inv(Apply(k, VisitStart(v)))
  {
    HandedInv(k.server.path, Visitor, v);
    var s := Visiting(k.server, v, k.now);
    assert !k.server.visited;
    hide PathInv, Outbox, Handed, CallCount, UpShape, DownShape, OneToken, UpLine, DownLine;
    assert Apply(k, VisitStart(v)) == k.(server := s);
    hide Apply, Enabled;
    VisitBegins(k, v, s);
  }

  /** When the announcement was taken from the queue, so was everything handed over before it. */
  lemma VisitAnnouncedInv(k: Conn)
    requires Inv(k) && Enabled(k, VisitAnnounced)
    ensures Inv(Apply(k, VisitAnnounced))
  {
    ClosedInv(k.server.path);
    Bounds(k.server.path);
    var s := Announced(k.server);
    assert k.server.visit.call + 1 == CallCount(k.server.path);
    hide PathInv, Outbox, CallCount, UpShape, DownShape, OneToken, UpLine, DownLine;
    assert Apply(k, VisitAnnounced) == k.(server := s);
    hide Apply, Enabled;
    AnnouncementTaken(k, s);
  }

  lemma AnnouncementTaken(k: Conn, s: Server)
    requires Inv(k) && k.server.visit.Announcing?
    requires PathInv(s.path) && Outbox(s.path) == Outbox(k.server.path) && |s.path.q.served| == CallCount(s.path)
    requires SenderStays(k.server.path, s.path) && s == k.server.(visit := Reading, path := s.path)
    ensures Inv(k.(server := s))
  {
    hide PathInv, Outbox, CallCount;
    var k' := k.(server := s);
    assert UpLine(k') == UpLine(k);
    assert DownLine(k') == DownLine(k);
  }

  /** The visit only ever sees a ping and the confirmation. */
  lemma VisitSees(k: Conn, m: Msg)
    requires Inv(k) && Enabled(k, VisitRecv(m))
    ensures UpLine(k) == k.up.frames != [] && k.up.frames[0] == m
    ensures m.Ping? || m.VisitConfirmed?
    ensures m.Ping? ==> PingsInFlight(k) == 1
    ensures m.VisitConfirmed? ==> k.client.visited && k.up.frames == [m] && DownLine(k) == []
  {
    hide PathInv, Outbox;
  }

  lemma VisitTakes(k: Conn, m: Msg, up: Chan)
    requires Inv(k) && k.server.visit.Reading? && k.up.frames != []
    requires m.Ping? ==> PingsInFlight(k) == 1
    requires m.Ping? || (m.VisitConfirmed? && k.client.visited && k.up.frames == [m] && DownLine(k) == [])
    requires up == k.up.(frames := k.up.frames[1..], stamps := up.stamps) && |up.stamps| == |up.frames|
    ensures Inv(k.(server := VisitOn(k.server, m), up := up))
  {
    hide PathInv, Outbox, CallCount;
    var k' := k.(server := VisitOn(k.server, m), up := up);
    assert UpLine(k') == UpLine(k)[1..];
    assert DownLine(k') == DownLine(k);
  }

  lemma VisitRecvInv(k: Conn, m: Msg)
    requires Inv(k) && Enabled(k, VisitRecv(m))
    ensures Inv(Apply(k, VisitRecv(m)))
  {
    VisitSees(k, m);
    hide PathInv, Outbox, CallCount, Positions, OneToken, DownLine, UpLine;
    var up := k.up.(frames := k.up.frames[1..], stamps := k.up.stamps[1..]);
    assert Apply(k, VisitRecv(m)) == k.(server := VisitOn(k.server, m), up := up);
    hide Apply, Enabled;
    VisitTakes(k, m, up);
  }

  /** The server worker changed its flags, its deadline or its queue, but not what is on the lines. */
  lemma ServerMoves(k: Conn, s: Server)
    requires Inv(k) && PathInv(s.path) && CallCount(s.path) == CallCount(k.server.path)
    requires s.path.q.served == k.server.path.q.served && Outbox(s.path) == Outbox(k.server.path)
    requires s == k.server.(alive := s.alive, stopping := s.stopping, ddl := s.ddl, path := s.path)
    requires (s.alive ==> k.server.alive) && (s.stopping && s.alive ==> s.visited)
    requires SenderStays(k.server.path, s.path) || (!s.path.senderAlive && !s.alive && !s.visited) ||
              (!s.path.senderAlive && s.path.q.abortedWaits != [])
    requires s.stopping && !s.visited ==> s.path.q.closed
    ensures Inv(k.(server := s))
  {
    hide PathInv, Outbox, CallCount;
    var k' := k.(server := s);
    assert UpLine(k') == UpLine(k) && DownLine(k') == DownLine(k);
  }

  /** What a stop or a failure leaves of the server worker. */
  function StoppedBy(s: Server, e: Event): Server { if e.ServerFail? then s.(alive := false) else TryStop(s) }

  lemma StoppedByKeeps(k: Conn, e: Event)
    requires Inv(k)
    ensures var s := StoppedBy(k.server, e);
            && PathInv(s.path) && CallCount(s.path) == CallCount(k.server.path)
            && s.path.q.served == k.server.path.q.served && Outbox(s.path) == Outbox(k.server.path)
            && s == k.server.(alive := s.alive, stopping := s.stopping, ddl := s.ddl, path := s.path)
            && (s.alive ==> k.server.alive) && (s.stopping && s.alive ==> s.visited)
            && SenderStays(k.server.path, s.path) && (s.stopping && !s.visited ==> s.path.q.closed)
  {
    ClosedInv(k.server.path);
    hide Outbox, CallCount, PathInv, UpShape, DownShape, OneToken;
  }

  lemma StopInv(k: Conn, e: Event)
    requires Inv(k) && Enabled(k, e) && (e.Deadline? || e.ServerStop? || e.ServerFail?)
    ensures Inv(Apply(k, e))
  {
    hide Inv, Outbox, CallCount, PathInv, SenderStays;
    StoppedByKeeps(k, e);
    var s := StoppedBy(k.server, e);
    assert Apply(k, e) == k.(server := s);
    hide Apply, Enabled, StoppedBy;
    ServerMoves(k, s);
  }

  /** The sender ends behind an aborted wait, or on a stopped worker; either way its path stays in order. */
  lemma SenderStopsPath(k: Conn)
    requires Inv(k) && Enabled(k, SenderEnds)
    ensures var p, p' := k.server.path, SenderStops(k.server).path;
            && PathInv(p') && Outbox(p') == Outbox(p) && CallCount(p') == CallCount(p)
            && p'.q.served == p.q.served && !p'.senderAlive
            && (p'.q.abortedWaits != [] || (!k.server.alive && !k.server.visited))
            && (SenderStops(k.server).stopping && !k.server.visited ==> p'.q.closed)
  {
    var p := k.server.path;
    SenderEndedInv(p);
    ClosedInv(p);
    SenderEndedInv(Closed(p));
    hide PathInv, Outbox, CallCount, UpShape, DownShape, OneToken;
  }

  lemma SenderEndsInv(k: Conn)
    requires Inv(k) && Enabled(k, SenderEnds)
    ensures Inv(Apply(k, SenderEnds))
  {
    SenderStopsPath(k);
    var s := SenderStops(k.server);
    assert Apply(k, SenderEnds) == k.(server := s);
    assert k.server.stopping && k.server.alive ==> k.server.visited;
    hide PathInv, Outbox, Apply, Enabled, CallCount;
    ServerMoves(k, s);
  }

  lemma StepInv(k: Conn, e: Event)
    requires Inv(k) && Enabled(k, e) && Orderly(k, e)
    ensures Inv(Apply(k, e))
  {
    hide Inv, Apply, Enabled, Orderly;
    match e
    case SendHello(m) => SendHelloInv(k, m);
    case ClientRecv(m) =>
      ClientSees(k, m);
      if m.Pong? {
        ClientPongInv(k);
      } else {
        ClientVisitInv(k, m);
      }
    case ClientPing => ClientPingInv(k);
    case Accept(m) => AcceptInv(k, m);
    case ServerRecv(m) => ServerRecvInv(k, m);
    case ServerAnswered => ServerAnsweredInv(k);
    case RunQueue => RunQueueInv(k);
    case ServerSend => ServerSendInv(k);
    case SenderEnds => SenderEndsInv(k);
    case VisitStart(v) => VisitStartInv(k, v);
    case VisitAnnounced => VisitAnnouncedInv(k);
    case VisitRecv(m) => VisitRecvInv(k, m);
    case PutRaw(_, _) => RawInv(k, e);
    case TakeRaw(_, _) => RawInv(k, e);
    case Tick(_) => ClientElseInv(k, e);
    case ClientPipe => ClientElseInv(k, e);
    case ClientFail => ClientElseInv(k, e);
    case Deadline => StopInv(k, e);
    case ServerStop => StopInv(k, e);
    case ServerFail => StopInv(k, e);
  }

  lemma {:induction false} RunInv(k: Conn, es: seq<Event>)
    requires Inv(k) && IsRun(k, es) && OrderlyRun(k, es)
    ensures Inv(After(k, es))
    decreases |es|
  {
    hide Inv, Apply, Enabled, Orderly;
    if es != [] {
      StepInv(k, es[0]);
      RunInv(Apply(k, es[0]), es[1..]);
    }
  }

  // ---- What the runs guarantee ---------------------------------------------

  /**
   The clean hand-off.  In every orderly run, when the visit has returned the
   socket nothing but raw bytes is unread in either direction, and when the client
   has given its socket away nothing but raw bytes will ever be read from it.
   */
  lemma CleanHandOff(now: Time, es: seq<Event>)
    requires IsRun(Opened(now), es) && OrderlyRun(Opened(now), es)
    ensures var k := After(Opened(now), es);
            && (k.server.visit.Done? ==> k.up.frames == [] && k.down.frames == [] && Outbox(k.server.path) == [])
            && (k.client.visited ==> k.down.frames == [] && Outbox(k.server.path) == [])
            && (k.up.raw != [] ==> k.client.pc.Piping?)
            && (k.down.raw != [] ==> k.server.visit.Done?)
  {
    OpenedInv(now);
    RunInv(Opened(now), es);
    hide PathInv, Outbox;
    var k := After(Opened(now), es);
    assert k.client.visited ==> DownLine(k) == [];
  }

  /** The tokens in a connection: an armed timer, pings on their way, pongs on their way. */
  function Tokens(k: Conn): int { One(TimerArmed(k)) + PingsInFlight(k) + PongsInFlight(k) }

  /** The line to the server is pings, and then the confirmation if it is due. */
  ghost predicate PingsThenConfirmation(k: Conn) {
    && 0 <= PingsInFlight(k)
    && (forall i :: 0 <= i < PingsInFlight(k) ==> UpLine(k)[i] == Ping)
    && (ConfirmPending(k) ==> UpLine(k)[PingsInFlight(k)] == VisitConfirmed)
  }

  /** The line to the client is pongs, and then the visit if it is due. */
  ghost predicate PongsThenVisit(k: Conn) {
    && 0 <= PongsInFlight(k)
    && (forall i :: 0 <= i < PongsInFlight(k) ==> DownLine(k)[i] == Pong)
    && (VisitPending(k) ==> DownLine(k)[PongsInFlight(k)].VisitTcpShare?)
  }

  /**
   Exactly one ping token from the hello to the visit, at most one after it; what it
   counts as pings and pongs in flight are the pings and pongs there are.
   */
  lemma SingleToken(now: Time, es: seq<Event>)
    requires IsRun(Opened(now), es) && OrderlyRun(Opened(now), es)
    ensures var k := After(Opened(now), es);
            && PingsThenConfirmation(k) && PongsThenVisit(k)
            && (k.client.pc.Fresh? ==> Tokens(k) == 0)
            && (!k.client.pc.Fresh? && !k.server.visited ==> Tokens(k) == 1)
            && Tokens(k) <= 1
  {
    OpenedInv(now);
    RunInv(Opened(now), es);
    LinesHold(After(Opened(now), es));
    hide PathInv, Positions, UpShape, DownShape, PingsThenConfirmation, PongsThenVisit, After, IsRun, OrderlyRun;
  }

  lemma LinesHold(k: Conn)
    requires Inv(k)
    ensures PingsThenConfirmation(k) && PongsThenVisit(k)
  {
    hide PathInv, Outbox, Positions, OneToken;
  }

  /** How many messages the visit reads in a run, the skipped pings included. */
  function VisitReads(es: seq<Event>): nat {
    if es == [] then 0 else (if es[0].VisitRecv? then 1 else 0) + VisitReads(es[1..])
  }

  /** How many more messages a visit can read: the one token that may turn up as a ping, and the confirmation. */
  function Budget(k: Conn): int {
    if k.server.visit.Done? then 0 else if k.client.pc.Fresh? then 2 else 1 + Tokens(k)
  }

  /** What a step does to the send path, when it neither hands a message over nor writes one. */
  lemma PathAfter(k: Conn, e: Event)
    requires Enabled(k, e) && !e.ServerSend? && !e.ServerRecv? && !e.VisitStart?
    ensures var p := k.server.path;
            var p' := Apply(k, e).server.path;
            || p' == p || p' == Closed(p)
            || (e.RunQueue? && p.q.posted != [] && p' == Ran(p))
            || (e.SenderEnds? && (p' == SenderEnded(p) || p' == Closed(SenderEnded(p))))
  {
    hide Closed, Ran, SenderEnded;
  }

  /** Only the sender takes from the outbox, and only a handed over message enters it. */
  lemma OutboxKept(k: Conn, e: Event)
    requires Inv(k) && Enabled(k, e) && !e.ServerSend? && !e.ServerRecv? && !e.VisitStart?
    ensures Outbox(Apply(k, e).server.path) == Outbox(k.server.path)
  {
    var p := k.server.path;
    PathAfter(k, e);
    assert PathInv(p);
    hide *;
    ClosedInv(p);
    if e.RunQueue? && p.q.posted != [] {
      RanInv(p);
    }
    if e.SenderEnds? {
      SenderEndedInv(p);
      SenderEndedInv(Closed(p));
    }
  }

  lemma SentOutbox(k: Conn)
    requires Inv(k) && Enabled(k, ServerSend)
    ensures var k' := Apply(k, ServerSend);
            var o := Outbox(k.server.path);
            && o != [] && Given(k.server, ServerSend, Down) == Message(o[0])
            && Outbox(k'.server.path) == o[1..] && k'.down.frames == k.down.frames + [o[0]]
  {
    SentInv(k.server.path);
    hide PathInv, Outbox, Sent, CanSend, NextMessage;
  }

  lemma VisitReadToken(k: Conn, m: Msg)
    requires Inv(k) && Enabled(k, VisitRecv(m))
    ensures Tokens(Apply(k, VisitRecv(m))) + One(m.Ping?) <= Tokens(k)
  {
    VisitSees(k, m);
    hide PathInv, Outbox, Positions, OneToken;
    var k' := Apply(k, VisitRecv(m));
    assert k'.client == k.client && k'.down == k.down && k'.up.frames == k.up.frames[1..];
    assert k'.server == VisitOn(k.server, m);
    hide Apply, Enabled;
    assert UpLine(k') == UpLine(k)[1..] && DownLine(k') == DownLine(k);
  }

  /** What the client's reading does to the lines. */
  lemma ClientReadLines(k: Conn, m: Msg)
    requires Inv(k) && Enabled(k, ClientRecv(m))
    ensures var k' := Apply(k, ClientRecv(m));
            && k'.server == k.server && k'.client == ClientOn(k.client, m, k.now).0
            && DownLine(k') == DownLine(k)[1..]
            && UpLine(k') == if m.VisitTcpShare? then UpLine(k) + [VisitConfirmed] else UpLine(k)
  {
    ClientSees(k, m);
    AcceptedBefore(k);
    hide PathInv, Outbox, Inv;
    var k' := Apply(k, ClientRecv(m));
    assert k'.server == k.server && k'.down.frames == k.down.frames[1..];
    assert k'.client == ClientOn(k.client, m, k.now).0;
    assert k'.up.frames == if m.VisitTcpShare? then k.up.frames + [VisitConfirmed] else k.up.frames;
    assert k.down.frames != [];
    hide Apply, Enabled, ClientOn;
    DropFirst(k.down.frames, Outbox(k.server.path));
  }

  lemma AcceptedBefore(k: Conn)
    requires Inv(k) && DownLine(k) != []
    ensures !k.server.recv.NotAccepted?
  {
    hide PathInv, Outbox, UpLine, DownLine;
  }

  lemma DropFirst<T>(a: seq<T>, b: seq<T>)
    requires a != []
    ensures a[1..] + b == (a + b)[1..]
  {
  }

  lemma ClientReadToken(k: Conn, m: Msg)
    requires Inv(k) && Enabled(k, ClientRecv(m))
    ensures Tokens(Apply(k, ClientRecv(m))) <= Tokens(k)
  {
    ClientSees(k, m);
    ClientReadLines(k, m);
    assert m.VisitTcpShare? ==> !k.server.visit.Done?;
    hide Inv, Apply, Enabled, UpLine, DownLine;
  }

  /** After the visit began nothing adds a token, and reading a ping takes one away. */
  lemma TokensShrink(k: Conn, e: Event)
    requires Inv(k) && Enabled(k, e) && Orderly(k, e) && k.server.visited
    ensures Tokens(Apply(k, e)) + One(e.VisitRecv? && e.m.Ping?) <= Tokens(k)
  {
    if e.VisitRecv? {
      VisitReadToken(k, e.m);
    } else if e.ClientRecv? {
      ClientReadToken(k, e.m);
    } else if e.ClientPing? {
      hide PathInv, Outbox;
      var k' := Apply(k, e);
      assert DownLine(k') == DownLine(k) && UpLine(k') == UpLine(k) + [Ping];
    } else {
      TokensElse(k, e);
    }
  }

  lemma SameTokens(k: Conn, k': Conn)
    requires k'.client.timer.Some? == k.client.timer.Some? && k'.client.visited == k.client.visited
    requires k'.server.visited == k.server.visited && k'.server.visit.Done? == k.server.visit.Done?
    requires |UpLine(k')| == |UpLine(k)| && |DownLine(k')| == |DownLine(k)|
    ensures Tokens(k') == Tokens(k)
  {
    hide UpLine, DownLine;
  }

  lemma SendKeepsTokens(k: Conn)
    requires Inv(k) && Enabled(k, ServerSend)
    ensures Tokens(Apply(k, ServerSend)) == Tokens(k)
  {
    SentOutbox(k);
    var o := Outbox(k.server.path);
    var k' := Apply(k, ServerSend);
    SendMoves(k);
    hide PathInv, Outbox, Inv, Tokens, CanSend, NextMessage, Sent, Apply, Enabled, Given;
    Regroup(k.down.frames, o);
    assert |UpLine(k')| == |UpLine(k)|;
    SameTokens(k, k');
  }

  lemma SendMoves(k: Conn)
    requires Enabled(k, ServerSend)
    ensures var k' := Apply(k, ServerSend);
            && k'.client == k.client && k'.up == k.up
            && k'.server == k.server.(path := k'.server.path)
  {
    hide PathInv, Outbox, Sent, CanSend, NextMessage;
  }

  lemma TokensElse(k: Conn, e: Event)
    requires Inv(k) && Enabled(k, e) && Orderly(k, e) && k.server.visited
    requires !e.VisitRecv? && !e.ClientRecv? && !e.ClientPing?
    ensures Tokens(Apply(k, e)) == Tokens(k)
  {
    if e.ServerSend? {
      SendKeepsTokens(k);
    } else {
      OutboxKept(k, e);
      LinesKept(k, e);
    }
  }

  lemma LinesKept(k: Conn, e: Event)
    requires Inv(k) && Enabled(k, e) && k.server.visited
    requires !e.VisitRecv? && !e.ClientRecv? && !e.ClientPing? && !e.ServerSend? && !e.ServerRecv? && !e.VisitStart?
    requires Outbox(Apply(k, e).server.path) == Outbox(k.server.path)
    ensures Tokens(Apply(k, e)) == Tokens(k)
  {
    hide PathInv, Outbox, UpShape, DownShape, OneToken, Tokens, CallCount;
    var k' := Apply(k, e);
    assert k'.up.frames == k.up.frames && k'.down.frames == k.down.frames && k'.client.timer == k.client.timer;
    assert k'.server.visited && k'.server.recv == k.server.recv && k'.client.visited == k.client.visited;
    assert k'.client.pc.Fresh? == k.client.pc.Fresh? && k'.server.visit.Done? == k.server.visit.Done?;
    hide Inv, Apply, Enabled;
    SameTokens(k, k');
  }

  /** A visit, once begun, stays begun; once done, stays done; it reads only while it is neither. */
  lemma Onward(k: Conn, e: Event)
    requires Enabled(k, e)
    ensures var k' := Apply(k, e);
            && (!k.client.pc.Fresh? ==> !k'.client.pc.Fresh?)
            && (k.server.visited ==> k'.server.visited)
            && (e.VisitRecv? ==> k.server.visit.Reading?)
            && (e.VisitRecv? && e.m.VisitConfirmed? ==> k'.server.visit.Done?)
            && (k.server.visit.Done? ==> k'.server.visit.Done? || !k.server.visited)
  {
  }

  lemma BudgetShrinks(k: Conn, e: Event)
    requires Inv(k) && Enabled(k, e) && Orderly(k, e)
    ensures Budget(Apply(k, e)) + One(e.VisitRecv?) <= Budget(k)
  {
    hide Inv, Apply, Enabled, Orderly, Tokens;
    StepInv(k, e);
    Onward(k, e);
    TokensAre(k);
    TokensAre(Apply(k, e));
    if k.server.visited {
      TokensShrink(k, e);
    }
    if e.VisitRecv? {
      VisitSees(k, e.m);
    }
  }

  lemma TokensAre(k: Conn)
    requires Inv(k)
    ensures 0 <= Tokens(k) <= 1
    ensures !k.client.pc.Fresh? && !k.server.visited ==> Tokens(k) == 1
    ensures k.client.pc.Fresh? ==> !k.server.visited && !k.server.visit.Done?
    ensures k.server.visit.Done? || k.server.visit.Reading? ==> k.server.visited
  {
    hide PathInv, Outbox;
  }

  lemma {:induction false} ReadsWithinBudget(k: Conn, es: seq<Event>)
    requires Inv(k) && IsRun(k, es) && OrderlyRun(k, es)
    ensures Inv(After(k, es)) && Budget(After(k, es)) + VisitReads(es) <= Budget(k)
    decreases |es|
  {
    hide Inv, Apply, Enabled, Orderly, Budget;
    if es != [] {
      StepInv(k, es[0]);
      BudgetShrinks(k, es[0]);
      ReadsWithinBudget(Apply(k, es[0]), es[1..]);
    }
  }

  /** In every orderly run the visit reads at most two messages, so it skips at most one ping. */
  lemma VisitReadsAtMostTwo(now: Time, es: seq<Event>)
    requires IsRun(Opened(now), es) && OrderlyRun(Opened(now), es)
    ensures VisitReads(es) <= 2
    ensures After(Opened(now), es).server.visit.Reading? ==> VisitReads(es) <= 1
  {
    OpenedInv(now);
    ReadsWithinBudget(Opened(now), es);
    hide PathInv, Outbox, UpLine, DownLine;
    var k := After(Opened(now), es);
    assert Budget(k) >= 0 && (k.server.visit.Reading? ==> Budget(k) >= 1);
  }

  /**
   The announcement cannot be lost: closing the queue right after it was handed over
   leaves the sender able to write until everything handed over is on the wire.
   */
  lemma AnnouncementIsWritten(now: Time, es: seq<Event>)
    requires IsRun(Opened(now), es) && OrderlyRun(Opened(now), es)
    ensures var k := After(Opened(now), es);
            k.server.visit.Reading? || k.server.visit.Done? ==>
              && (CanSend(k.server.path) <==> Outbox(k.server.path) != [])
              && (!k.client.visited ==> DownLine(k) != [] && DownLine(k)[|DownLine(k)| - 1].VisitTcpShare?)
              && (SenderAborted(k.server.path) ==> Outbox(k.server.path) == [])
  {
    OpenedInv(now);
    RunInv(Opened(now), es);
    var k := After(Opened(now), es);
    if k.server.visit.Reading? || k.server.visit.Done? {
      ServedIsWritten(k.server.path);
    }
    hide PathInv, Outbox, CanSend;
  }

  // ---- The streams as a whole ------------------------------------------------

  /** What a run puts into a channel, in order. */
  function Stream(k: Conn, es: seq<Event>, dir: Dir): seq<Item>
    requires IsRun(k, es)
    decreases |es|
  {
    if es == [] then []
    else
      var x := Given(k.server, es[0], dir);
      (if x == Nothing then [] else [x]) + Stream(Apply(k, es[0]), es[1..], dir)
  }

  /** Where a stream is: before the hello, among control messages, or past the last of them. */
  datatype Phase = Silent | Talking | Over

  /** Up: hello, pings, a confirmation, raw bytes.  Down: pongs, a visit, raw bytes.  None if x breaks the order. */
  function Next(dir: Dir, ph: Phase, x: Item): Option<Phase> {
    match x
    case Nothing => None
    case Raw(_) => if ph == Over then Some(Over) else None
    case Message(m) =>
      if dir == Up then
        if ph == Silent && m.WorkerHello? then Some(Talking)
        else if ph == Talking && m.Ping? then Some(Talking)
        else if ph == Talking && m.VisitConfirmed? then Some(Over)
        else None
      else
        if ph == Talking && m.Pong? then Some(Talking)
        else if ph == Talking && m.VisitTcpShare? then Some(Over)
        else None
  }

  ghost predicate InOrder(dir: Dir, ph: Phase, xs: seq<Item>)
    decreases |xs|
  {
    xs == [] || (Next(dir, ph, xs[0]).Some? && InOrder(dir, Next(dir, ph, xs[0]).value, xs[1..]))
  }

  function PhaseOf(k: Conn, dir: Dir): Phase {
    if dir == Up then
      (match k.client.pc case Fresh => Silent case Receiving => Talking case _ => Over)
    else if k.server.visited && Outbox(k.server.path) == [] then Over
    else Talking
  }

  lemma UpPhase(k: Conn, e: Event)
    requires Inv(k) && Enabled(k, e)
    ensures var x := Given(k.server, e, Up);
            if x == Nothing then PhaseOf(Apply(k, e), Up) == PhaseOf(k, Up)
            else Next(Up, PhaseOf(k, Up), x) == Some(PhaseOf(Apply(k, e), Up))
  {
    hide PathInv, Outbox, UpShape, DownShape, OneToken, CanSend, NextMessage;
    if e.ClientRecv? {
      ClientSees(k, e.m);
      hide Positions, Inv;
    }
  }

  lemma DownSendPhase(k: Conn)
    requires Inv(k) && Enabled(k, ServerSend)
    ensures Next(Down, PhaseOf(k, Down), Given(k.server, ServerSend, Down)) ==
            Some(PhaseOf(Apply(k, ServerSend), Down))
  {
    SentOutbox(k);
    hide PathInv, Outbox, Sent, CanSend, NextMessage, OneToken;
    var o := Outbox(k.server.path);
    var d := DownLine(k);
    assert d[|k.down.frames|] == o[0] && |d| == |k.down.frames| + |o|;
    assert |o| > 1 ==> d[|k.down.frames| + 1] == o[1];
  }

  /** Which steps write to the client, and which begin the visit. */
  lemma DownGiven(k: Conn, e: Event)
    requires Enabled(k, e) && !e.ServerSend?
    ensures Given(k.server, e, Down) == if e.PutRaw? && e.dir == Down then Raw(e.bs) else Nothing
    ensures !e.VisitStart? ==> Apply(k, e).server.visited == k.server.visited
    ensures e.VisitStart? ==>
              Apply(k, e).server.visited && Apply(k, e).server.path == Handed(k.server.path, Visitor, e.v)
    ensures e.PutRaw? && e.dir == Down ==> k.server.visit.Done?
  {
    hide Handed;
  }

  lemma DoneIsOver(k: Conn)
    requires Inv(k) && k.server.visit.Done?
    ensures PhaseOf(k, Down) == Over
  {
    hide PathInv, Outbox;
    assert DownLine(k) == [];
  }

  lemma DownPhase(k: Conn, e: Event)
    requires Inv(k) && Enabled(k, e) && Orderly(k, e)
    ensures var x := Given(k.server, e, Down);
            if x == Nothing then PhaseOf(Apply(k, e), Down) == PhaseOf(k, Down)
            else Next(Down, PhaseOf(k, Down), x) == Some(PhaseOf(Apply(k, e), Down))
  {
    if e.ServerSend? {
      DownSendPhase(k);
    } else {
      DownElsePhase(k, e);
    }
    hide *;
  }

  lemma DownElsePhase(k: Conn, e: Event)
    requires Inv(k) && Enabled(k, e) && Orderly(k, e) && !e.ServerSend?
    ensures var x := Given(k.server, e, Down);
            if x == Nothing then PhaseOf(Apply(k, e), Down) == PhaseOf(k, Down)
            else Next(Down, PhaseOf(k, Down), x) == Some(PhaseOf(Apply(k, e), Down))
  {
    DownGiven(k, e);
    var p := k.server.path;
    if e.ServerRecv? {
      ServerSees(k, e.m);
    }
    if e.VisitStart? {
      NotVisited(k, e);
    }
    assert PathInv(p);
    hide Inv, Apply, Enabled, Orderly, Given, Handed, Outbox, PathInv;
    if e.VisitStart? {
      HandedInv(p, Visitor, e.v);
    } else if !e.ServerRecv? {
      OutboxKept(k, e);
      if e.PutRaw? && e.dir == Down {
        DoneIsOver(k);
      }
    }
  }

  lemma NotVisited(k: Conn, e: Event)
    requires Inv(k) && Enabled(k, e) && e.VisitStart?
    ensures !k.server.visited
  {
    hide PathInv, UpShape, DownShape, OneToken;
  }

  lemma {:induction false} StreamFollows(k: Conn, es: seq<Event>, dir: Dir)
    requires Inv(k) && IsRun(k, es) && OrderlyRun(k, es)
    ensures InOrder(dir, PhaseOf(k, dir), Stream(k, es, dir))
    decreases |es|
  {
    hide Inv, Apply, Orderly, PhaseOf, Given, Next, Taken, CanTake;
    if es != [] {
      var e := es[0];
      StepInv(k, e);
      if dir == Up {
        UpPhase(k, e);
      } else {
        DownPhase(k, e);
      }
      StreamFollows(Apply(k, e), es[1..], dir);
      var x := Given(k.server, e, dir);
      var rest := Stream(Apply(k, e), es[1..], dir);
      if x != Nothing {
        assert Stream(k, es, dir) == [x] + rest;
        assert ([x] + rest)[1..] == rest;
      } else {
        assert Stream(k, es, dir) == rest;
      }
    }
  }

  /**
   In every orderly run the client sends its hello, then pings, then at most one
   confirmation, then raw bytes; the server sends pongs, then at most one visit,
   then raw bytes.
   */
  lemma StreamsInOrder(now: Time, es: seq<Event>)
    requires IsRun(Opened(now), es) && OrderlyRun(Opened(now), es)
    ensures InOrder(Up, Silent, Stream(Opened(now), es, Up))
    ensures InOrder(Down, Talking, Stream(Opened(now), es, Down))
  {
    OpenedInv(now);
    StreamFollows(Opened(now), es, Up);
    StreamFollows(Opened(now), es, Down);
  }
}

/**
 What arrives at the users of a share: from every reachable state, copying brings all
 that a visitor sent to the local connection it reaches, and back; and there is a run
 from nothing in which a visitor comes, a tunnel is opened, and any bytes arrive.
 */
module Arrival {
  import opened Framing
  import opened Messages
  import opened Session
  import opened Tunnel
  import opened Matching
  import opened Forwarder
  import opened Sharing
  import opened World
  import H = HandOff
  import W = WaitQueue

  // ---- Steps inside one tunnel -----------------------------------------------------------

  function Deeds(w: nat, xs: seq<Step>): seq<Deed> {
    if xs == [] then [] else [InTunnel(w, xs[0])] + Deeds(w, xs[1..])
  }

  /** A step that neither takes bytes from a user nor needs one to be there. */
  predicate Inside(g: World, w: nat, x: Step) {
    && !x.Send?
    && ((x.Write2? && x.dir == Down) || (x.SendEof? && x.dir == Up) ==> w in g.localOf)
    && ((x.Write2? && x.dir == Up) || (x.SendEof? && x.dir == Down) ==> w in g.visitorOf)
  }

  /** Everything but one tunnel and what users got from it is as it was. */
  ghost predicate OnlyTunnel(g: World, g': World, w: nat, t: Net) {
    && g'.share == g.share && g'.visitorOf == g.visitorOf && g'.localOf == g.localOf
    && g'.visitorSent == g.visitorSent && g'.localSent == g.localSent && g'.nets == g.nets[w := t]
  }

  lemma StepInside(g: World, w: nat, x: Step)
    requires w in g.nets && Can(g.nets[w], x) && Fair(g.nets[w], x) && Inside(g, w, x)
    ensures CanDo(g, InTunnel(w, x)) && FairDeed(g, InTunnel(w, x))
    ensures OnlyTunnel(g, AfterDeed(g, InTunnel(w, x)), w, Do(g.nets[w], x))
    ensures w !in g.localOf && w !in g.visitorOf ==>
              AfterDeed(g, InTunnel(w, x)) == g.(nets := g.nets[w := Do(g.nets[w], x)])
  {
    hide Can, Do, Fair, Out;
  }

  lemma {:induction false} StepsInside(g: World, w: nat, xs: seq<Step>)
    requires w in g.nets && IsNetRun(g.nets[w], xs) && forall x <- xs :: Inside(g, w, x)
    ensures IsWorldRun(g, Deeds(w, xs))
    ensures OnlyTunnel(g, WorldAfter(g, Deeds(w, xs)), w, NetAfter(g.nets[w], xs))
    ensures w !in g.localOf && w !in g.visitorOf ==>
              WorldAfter(g, Deeds(w, xs)) == g.(nets := g.nets[w := NetAfter(g.nets[w], xs)])
    decreases |xs|
  {
    hide Can, Do, Fair, CanDo, AfterDeed, FairDeed;
    if xs == [] {
      assert g.nets[w := g.nets[w]] == g.nets;
    } else {
      assert xs[0] in xs && forall x <- xs[1..] :: x in xs;
      StepInside(g, w, xs[0]);
      var m := AfterDeed(g, InTunnel(w, xs[0]));
      assert forall x <- xs :: Inside(m, w, x);
      StepsInside(m, w, xs[1..]);
      assert Deeds(w, xs)[1..] == Deeds(w, xs[1..]);
    }
  }

  // ---- All that was sent arrives -----------------------------------------------------------

  /** Tunnel w joins visitor v to local connection l. */
  predicate Carries(g: World, w: nat, v: nat, l: nat) {
    w in g.nets && w in g.visitorOf && g.visitorOf[w] == v && w in g.localOf && g.localOf[w] == l
  }

  /** Both ends hold a pipe, and in this direction the source has ended and nothing was lost or withheld. */
  predicate Healthy(t: Net, dir: Dir) { Piped(t.conn, true) && Piped(t.conn, false) && Unbroken(FlowOf(t, dir)) }

  lemma CopiesInside(g: World, w: nat, ys: seq<Step>, dir: Dir)
    requires w in g.visitorOf && w in g.localOf && forall y <- ys :: Copies(y, dir)
    ensures forall y <- ys :: Inside(g, w, y)
  {
  }

  /** What a tunnel has been sent and has delivered is what its users sent and got. */
  lemma UsersOf(g: World, w: nat, v: nat, l: nat)
    requires WorldInv(g) && Carries(g, w, v, l)
    ensures var f := FlowOf(g.nets[w], Down);
            f.sent == Get(g.visitorSent, v) && f.delivered == Get(g.localGot, l)
    ensures var f := FlowOf(g.nets[w], Up);
            f.sent == Get(g.localSent, l) && f.delivered == Get(g.visitorGot, v)
  {
    Parts(g);
    hide WorldInv, SideInv, VisitorsJoined, LocalsJoined, ShareInv, AllSound, FlowOf, Get;
    OppositeIs();
    UserOfTunnel(g.nets, g.visitorOf, g.visitorSent, g.visitorGot, Down, w);
    UserOfTunnel(g.nets, g.localOf, g.localSent, g.localGot, Up, w);
  }

  lemma StillCarries(g: World, g': World, w: nat, v: nat, l: nat, t: Net)
    requires Carries(g, w, v, l) && OnlyTunnel(g, g', w, t)
    ensures Carries(g', w, v, l) && g'.nets[w] == t
  {
  }

  /** The bytes the users at the two ends of a direction have sent and got. */
  function SentIn(g: World, v: nat, l: nat, dir: Dir): Bytes {
    if dir == Down then Get(g.visitorSent, v) else Get(g.localSent, l)
  }

  function GotIn(g: World, v: nat, l: nat, dir: Dir): Bytes {
    if dir == Down then Get(g.localGot, l) else Get(g.visitorGot, v)
  }

  /** Steps that copy all there is of a direction to its destination. */
  ghost predicate Delivers(t: Net, ys: seq<Step>, dir: Dir) {
    && IsNetRun(t, ys) && (forall y <- ys :: Copies(y, dir))
    && FlowOf(NetAfter(t, ys), dir).delivered == FlowOf(NetAfter(t, ys), dir).sent == FlowOf(t, dir).sent
  }

  /** Steps inside tunnel w that bring all that was sent to the user at the other end. */
  ghost predicate BringsAll(g: World, w: nat, v: nat, l: nat, dir: Dir, ys: seq<Step>) {
    && IsWorldRun(g, Deeds(w, ys))
    && var g' := WorldAfter(g, Deeds(w, ys));
       g'.share == g.share && GotIn(g', v, l, dir) == SentIn(g', v, l, dir) == SentIn(g, v, l, dir)
  }

  lemma SameBytes(g: World, g': World, w: nat, v: nat, l: nat, dir: Dir)
    requires WorldInv(g) && WorldInv(g') && Carries(g, w, v, l) && Carries(g', w, v, l)
    requires var f := FlowOf(g'.nets[w], dir); f.delivered == f.sent == FlowOf(g.nets[w], dir).sent
    ensures GotIn(g', v, l, dir) == SentIn(g, v, l, dir)
  {
    hide WorldInv, FlowOf, Get;
    UsersOf(g, w, v, l);
    UsersOf(g', w, v, l);
  }

  lemma AtTunnel(g: World, w: nat, v: nat, l: nat)
    requires Carries(g, w, v, l)
    ensures w in g.nets && w in g.visitorOf && w in g.localOf
  {
  }

  lemma CopiedToUsers(g: World, w: nat, v: nat, l: nat, dir: Dir, ys: seq<Step>)
    requires WorldInv(g) && Carries(g, w, v, l) && Delivers(g.nets[w], ys, dir)
    ensures BringsAll(g, w, v, l, dir, ys)
  {
    hide *;
    AtTunnel(g, w, v, l);
    DeliversMeans(g.nets[w], ys, dir);
    CopiesInside(g, w, ys, dir);
    StepsInside(g, w, ys);
    var g' := WorldAfter(g, Deeds(w, ys));
    WorldRunKept(g, Deeds(w, ys));
    StillCarries(g, g', w, v, l, NetAfter(g.nets[w], ys));
    SameBytes(g, g', w, v, l, dir);
    SameSent(g, g', w, NetAfter(g.nets[w], ys), v, l, dir);
    Brought(g, w, v, l, dir, ys);
  }

  lemma SameSent(g: World, g': World, w: nat, t: Net, v: nat, l: nat, dir: Dir)
    requires OnlyTunnel(g, g', w, t)
    ensures g'.share == g.share && SentIn(g', v, l, dir) == SentIn(g, v, l, dir)
  {
  }

  lemma DeliversMeans(t: Net, ys: seq<Step>, dir: Dir)
    requires Delivers(t, ys, dir)
    ensures IsNetRun(t, ys) && (forall y <- ys :: Copies(y, dir))
    ensures var f := FlowOf(NetAfter(t, ys), dir); f.delivered == f.sent == FlowOf(t, dir).sent
  {
  }

  lemma Brought(g: World, w: nat, v: nat, l: nat, dir: Dir, ys: seq<Step>)
    requires IsWorldRun(g, Deeds(w, ys))
    requires var g' := WorldAfter(g, Deeds(w, ys));
             g'.share == g.share && GotIn(g', v, l, dir) == SentIn(g', v, l, dir) == SentIn(g, v, l, dir)
    ensures BringsAll(g, w, v, l, dir, ys)
  {
  }

  lemma CarriesWhenReached(g: World, v: nat, l: nat) returns (w: nat)
    requires WorldInv(g) && Reaches(g.share, v, l)
    ensures Carries(g, w, v, l)
  {
    Parts(g);
    hide WorldInv, SideInv, VisitorsJoined, LocalsJoined, ShareInv, AllSound, Reaches;
    w := ReachesThrough(g, v, l);
    JoinedIsOpen(g.nets, g.visitorOf, g.visitorSent, g.visitorGot, Down, w);
  }

  /**
   In every run of a whole share, when visitor v reaches local connection l, it does so
   through a tunnel w; and if w is healthy in a direction, steps inside w alone bring all
   that was sent in that direction to the other user.
   */
  lemma AllOfItArrives(ds: seq<Deed>, v: nat, l: nat, dir: Dir) returns (w: nat, ys: seq<Step>)
    requires IsWorldRun(EMPTY_WORLD, ds) && Reaches(WorldAfter(EMPTY_WORLD, ds).share, v, l)
    ensures var g := WorldAfter(EMPTY_WORLD, ds);
            && Carries(g, w, v, l) && (forall y <- ys :: Copies(y, dir))
            && (Healthy(g.nets[w], dir) ==> BringsAll(g, w, v, l, dir, ys))
  {
    hide *;
    EmptyWorldInv();
    WorldRunKept(EMPTY_WORLD, ds);
    w, ys := AllFrom(WorldAfter(EMPTY_WORLD, ds), v, l, dir);
  }

  lemma AllFrom(g: World, v: nat, l: nat, dir: Dir) returns (w: nat, ys: seq<Step>)
    requires WorldInv(g) && Reaches(g.share, v, l)
    ensures Carries(g, w, v, l) && forall y <- ys :: Copies(y, dir)
    ensures Healthy(g.nets[w], dir) ==> BringsAll(g, w, v, l, dir, ys)
  {
    hide *;
    w := CarriesWhenReached(g, v, l);
    AtTunnel(g, w, v, l);
    ys := [];
    if Healthy(g.nets[w], dir) {
      ys := CopyAll(g, w, dir);
      CopiedToUsers(g, w, v, l, dir, ys);
      DeliversMeans(g.nets[w], ys, dir);
    }
  }

  lemma CopyAll(g: World, w: nat, dir: Dir) returns (ys: seq<Step>)
    requires WorldInv(g) && w in g.nets && Healthy(g.nets[w], dir)
    ensures Delivers(g.nets[w], ys, dir)
  {
    Parts(g);
    SoundAt(g.nets, w);
    var t := g.nets[w];
    hide *;
    ys := CopySound(t, dir);
  }

  lemma CopySound(t: Net, dir: Dir) returns (ys: seq<Step>)
    requires SoundNet(t) && Healthy(t, dir)
    ensures Delivers(t, ys, dir)
  {
    var k :| Sound(t, k);
    hide Sound, Unbroken, FlowOf, IsNetRun, NetAfter, Copies, Piped;
    ys := EverythingArrivesFrom(t, k, dir);
  }

  // ---- A run from nothing --------------------------------------------------------------------

  /** One taker, one offer, both posted tasks run, and the taker resumed. */
  lemma OneMeeting(v: nat, w: nat) returns (m1: Match, m2: Match, m3: Match, m4: Match, m5: Match)
    ensures CanMove(NO_MATCH, Want(v)) && m1 == Moved(NO_MATCH, Want(v))
    ensures CanMove(m1, Offer(w)) && m2 == Moved(m1, Offer(w))
    ensures CanMove(m2, RunPosted(0)) && m3 == Moved(m2, RunPosted(0))
    ensures CanMove(m3, RunPosted(0)) && m4 == Moved(m3, RunPosted(0))
    ensures CanMove(m4, Resume(0)) && m5 == Moved(m4, Resume(0)) && m4.q.values == [w]
    ensures m5.taken == map[v := 0] && m5.q.values == [w]
  {
    m1 := Moved(NO_MATCH, Want(v));
    m2 := Moved(m1, Offer(w));
    assert m2.q.posted == [W.WaitTask(Taker(v)), W.ProvideTask(Giver(w), w)];
    m3 := Moved(m2, RunPosted(0));
    assert m3.q.q == [Taker(v)] && m3.q.posted == [W.ProvideTask(Giver(w), w)];
    m4 := Moved(m3, RunPosted(0));
    assert m4.q.got == [Taker(v)] && m4.q.values == [w];
    m5 := Moved(m4, Resume(0));
  }

  ghost predicate Got(ds: seq<Deed>, g: World) { IsWorldRun(EMPTY_WORLD, ds) && WorldAfter(EMPTY_WORLD, ds) == g }

  lemma {:induction false} WorldsJoin(g: World, ds: seq<Deed>, es: seq<Deed>)
    requires IsWorldRun(g, ds) && IsWorldRun(WorldAfter(g, ds), es)
    ensures IsWorldRun(g, ds + es) && WorldAfter(g, ds + es) == WorldAfter(WorldAfter(g, ds), es)
    decreases |ds|
  {
    hide CanDo, FairDeed, AfterDeed;
    if ds == [] {
      assert ds + es == es;
    } else {
      WorldsJoin(AfterDeed(g, ds[0]), ds[1..], es);
      assert (ds + es)[1..] == ds[1..] + es;
    }
  }

  lemma GotMore(ds: seq<Deed>, g: World, es: seq<Deed>)
    requires Got(ds, g) && IsWorldRun(g, es)
    ensures Got(ds + es, WorldAfter(g, es))
  {
    WorldsJoin(EMPTY_WORLD, ds, es);
  }

  lemma GotOne(ds: seq<Deed>, g: World, d: Deed)
    requires Got(ds, g) && CanDo(g, d) && FairDeed(g, d)
    ensures Got(ds + [d], AfterDeed(g, d))
  {
    hide CanDo, FairDeed, AfterDeed, Got;
    var m := AfterDeed(g, d);
    assert IsWorldRun(m, []) && WorldAfter(m, []) == m && [d][1..] == [];
    assert IsWorldRun(g, [d]) && WorldAfter(g, [d]) == m;
    GotMore(ds, g, [d]);
  }

  /** An act of the share that needs no tunnel to be piped. */
  predicate Plain(a: Act) {
    !a.PipeAtServer? && !a.PipeAtClient? && !a.VisitReturns? && !(a.AtClient? && a.e.Offer?)
  }

  lemma GotAct(ds: seq<Deed>, g: World, a: Act, s: Share)
    requires Got(ds, g) && CanAct(g.share, a) && Acted(g.share, a) == s && Plain(a)
    ensures Got(ds + [InShare(a)], g.(share := s))
  {
    assert CanDo(g, InShare(a)) && AfterDeed(g, InShare(a)) == g.(share := s) by { hide CanAct, Acted; }
    hide CanAct, Acted, CanDo, AfterDeed, Got;
    GotOne(ds, g, InShare(a));
  }

  function OneTunnel(w: nat, t: Net): World { EMPTY_WORLD.(nets := map[w := t]) }

  /** A tunnel is opened, and its ends hand it to their pipes. */
  lemma OpensTunnel(now: Time, hello: Msg, visit: Msg, w: nat) returns (ds: seq<Deed>, t: Net)
    requires hello.WorkerHello? && Sendable(hello) && visit.VisitTcpShare? && Sendable(visit)
    ensures Got(ds, OneTunnel(w, t))
    ensures Piped(t.conn, true) && Piped(t.conn, false) && t.up == SILENCE && t.down == SILENCE
  {
    var xs := H.Connects(now, hello, visit);
    t := NetAfter(Opening(now), xs);
    assert Got([], EMPTY_WORLD);
    var g := OneTunnel(w, Opening(now));
    hide Got, IsNetRun, NetAfter, Piped, Sendable, Opening, IsWorldRun, WorldAfter;
    GotOne([], EMPTY_WORLD, Opens(w, now));
    assert AfterDeed(EMPTY_WORLD, Opens(w, now)) == g;
    assert forall x <- xs :: Inside(g, w, x);
    StepsInside(g, w, xs);
    assert g.(nets := g.nets[w := t]) == OneTunnel(w, t);
    GotMore([] + [Opens(w, now)], g, Deeds(w, xs));
    ds := [] + [Opens(w, now)] + Deeds(w, xs);
  }

  /** A side is fed with nothing. */
  lemma FeedNothing(w: nat, t: Net, dir: Dir)
    requires FlowOf(t, dir) == SILENCE
    ensures CanFeed(map[w := t], w, dir, []) && Fed(map[w := t], w, dir, []) == map[w := t]
  {
    var none: Bytes := [];
    assert none + none == none;
    assert Do(t, Send(dir, [])) == t;
  }

  /** The first job of a forwarder, before it has its pipe. */
  function OneJob(d: nat, job: Job): Fwd { Fwd(map[d := job], 0, map[]) }

  /** The world when the visitor has its worker, but no pipe yet; m is the queue at the server. */
  function AtServerSide(w: nat, t: Net, m: Match, visitors: Fwd): World {
    OneTunnel(w, t).(share := Share(m, visitors, NO_MATCH, NO_PIPES, 0))
  }

  lemma TakesWorker(ds0: seq<Deed>, v: nat, w: nat, t: Net) returns (ds: seq<Deed>, m: Match)
    requires Got(ds0, OneTunnel(w, t))
    ensures m.taken == map[v := 0] && m.q.values == [w] && Got(ds, AtServerSide(w, t, m, OneJob(v, Connecting)))
  {
    var m1, m2, m3, m4, m5 := OneMeeting(v, w);
    m := m5;
    hide Got, CanMove, Moved;
    var f := OneJob(v, Connecting);
    var g := OneTunnel(w, t);
    GotAct(ds0, g, VisitorComes(v), Share(m1, f, NO_MATCH, NO_PIPES, 0));
    ds := ds0 + [InShare(VisitorComes(v))];
    GotAct(ds, AtServerSide(w, t, m1, f), AtServer(Offer(w)), Share(m2, f, NO_MATCH, NO_PIPES, 0));
    ds := ds + [InShare(AtServer(Offer(w)))];
    GotAct(ds, AtServerSide(w, t, m2, f), AtServer(RunPosted(0)), Share(m3, f, NO_MATCH, NO_PIPES, 0));
    ds := ds + [InShare(AtServer(RunPosted(0)))];
    GotAct(ds, AtServerSide(w, t, m3, f), AtServer(RunPosted(0)), Share(m4, f, NO_MATCH, NO_PIPES, 0));
    ds := ds + [InShare(AtServer(RunPosted(0)))];
    GotAct(ds, AtServerSide(w, t, m4, f), AtServer(Resume(0)), Share(m5, f, NO_MATCH, NO_PIPES, 0));
    ds := ds + [InShare(AtServer(Resume(0)))];
  }

  /** The first job of a forwarder, when it has its pipe. */
  function OnePipe(d: nat, u: nat): Fwd { Fwd(map[d := InPipe(0)], 1, map[0 := (d, u)]) }

  lemma PipeAtTheServer(ds0: seq<Deed>, v: nat, w: nat, t: Net, m: Match) returns (ds: seq<Deed>)
    requires Got(ds0, AtServerSide(w, t, m, OneJob(v, Connecting))) && m.taken == map[v := 0] && m.q.values == [w]
    requires Piped(t.conn, true) && t.down == SILENCE
    ensures Got(ds, AtServerSide(w, t, m, OnePipe(v, w)).(visitorOf := map[w := v]))
  {
    var g := AtServerSide(w, t, m, OneJob(v, Connecting));
    var a := VisitReturns(v);
    var f := OneJob(v, Connected(w));
    hide Got, Piped, CanFeed, Fed;
    assert CanDo(g, InShare(a)) && AfterDeed(g, InShare(a)) == AtServerSide(w, t, m, f);
    GotOne(ds0, g, InShare(a));
    ds := ds0 + [InShare(a)];
    var g1 := AtServerSide(w, t, m, f);
    FeedNothing(w, t, Down);
    assert Registered(f, v) == OnePipe(v, w);
    assert CanDo(g1, JoinsVisitor(v));
    assert AfterDeed(g1, JoinsVisitor(v)) == AtServerSide(w, t, m, OnePipe(v, w)).(visitorOf := map[w := v]);
    GotOne(ds, g1, JoinsVisitor(v));
    ds := ds + [JoinsVisitor(v)];
  }

  /** The world when the visitor has its pipe; m and c are the queues at the two sides. */
  function AtClientSide(v: nat, w: nat, t: Net, m: Match, c: Match, tunnels: Fwd, locals: nat): World {
    AtServerSide(w, t, m, OnePipe(v, w)).(
      share := Share(m, OnePipe(v, w), c, tunnels, locals), visitorOf := map[w := v])
  }

  lemma OffersTunnel(ds0: seq<Deed>, v: nat, w: nat, t: Net, m: Match, c1: Match, c2: Match) returns (ds: seq<Deed>)
    requires Got(ds0, AtClientSide(v, w, t, m, c1, NO_PIPES, 0)) && Piped(t.conn, false)
    requires CanMove(c1, Offer(w)) && c2 == Moved(c1, Offer(w))
    ensures Got(ds, AtClientSide(v, w, t, m, c2, NO_PIPES, 0))
  {
    hide Got, CanMove, Moved, Piped;
    var g := AtClientSide(v, w, t, m, c1, NO_PIPES, 0);
    var d := InShare(AtClient(Offer(w)));
    assert CanDo(g, d) && AfterDeed(g, d) == AtClientSide(v, w, t, m, c2, NO_PIPES, 0);
    GotOne(ds0, g, d);
    ds := ds0 + [d];
  }

  /** The accept loop asks, the tunnel is offered, and what was posted is run. */
  lemma TunnelMeets(ds0: seq<Deed>, v: nat, w: nat, t: Net, m: Match, c1: Match, c2: Match, c3: Match, c4: Match)
      returns (ds: seq<Deed>)
    requires Got(ds0, AtClientSide(v, w, t, m, NO_MATCH, NO_PIPES, 0)) && Piped(t.conn, false)
    requires CanMove(NO_MATCH, Want(0)) && c1 == Moved(NO_MATCH, Want(0))
    requires CanMove(c1, Offer(w)) && c2 == Moved(c1, Offer(w))
    requires CanMove(c2, RunPosted(0)) && c3 == Moved(c2, RunPosted(0))
    requires CanMove(c3, RunPosted(0)) && c4 == Moved(c3, RunPosted(0))
    ensures Got(ds, AtClientSide(v, w, t, m, c4, NO_PIPES, 0))
  {
    hide Got, CanMove, Moved, Piped;
    var p := OnePipe(v, w);
    GotAct(ds0, AtClientSide(v, w, t, m, NO_MATCH, NO_PIPES, 0), AtClient(Want(0)), Share(m, p, c1, NO_PIPES, 0));
    ds := ds0 + [InShare(AtClient(Want(0)))];
    ds := OffersTunnel(ds, v, w, t, m, c1, c2);
    GotAct(ds, AtClientSide(v, w, t, m, c2, NO_PIPES, 0), AtClient(RunPosted(0)), Share(m, p, c3, NO_PIPES, 0));
    ds := ds + [InShare(AtClient(RunPosted(0)))];
    GotAct(ds, AtClientSide(v, w, t, m, c3, NO_PIPES, 0), AtClient(RunPosted(0)), Share(m, p, c4, NO_PIPES, 0));
    ds := ds + [InShare(AtClient(RunPosted(0)))];
  }

  lemma LocalServes(ds0: seq<Deed>, v: nat, w: nat, t: Net, m: Match, c4: Match, c5: Match) returns (ds: seq<Deed>)
    requires Got(ds0, AtClientSide(v, w, t, m, c4, NO_PIPES, 0))
    requires CanMove(c4, Resume(0)) && c5 == Moved(c4, Resume(0)) && c4.q.values == [w]
    ensures Got(ds, AtClientSide(v, w, t, m, c5, OneJob(w, Connected(0)), 1))
  {
    hide Got, CanMove, Moved;
    var p, f := OnePipe(v, w), OneJob(w, Connecting);
    GotAct(ds0, AtClientSide(v, w, t, m, c4, NO_PIPES, 0), TunnelAccepted(0), Share(m, p, c5, f, 0));
    ds := ds0 + [InShare(TunnelAccepted(0))];
    GotAct(ds, AtClientSide(v, w, t, m, c5, f, 0), LocalConnects(w), Share(m, p, c5, OneJob(w, Connected(0)), 1));
    ds := ds + [InShare(LocalConnects(w))];
  }

  /** The tunnel is accepted by the client's forwarder, and a connection to the local service is made. */
  lemma AcceptsTunnel(ds0: seq<Deed>, v: nat, w: nat, t: Net, m: Match) returns (ds: seq<Deed>, c: Match)
    requires Got(ds0, AtClientSide(v, w, t, m, NO_MATCH, NO_PIPES, 0)) && Piped(t.conn, false)
    ensures Got(ds, AtClientSide(v, w, t, m, c, OneJob(w, Connected(0)), 1))
  {
    hide *;
    var c1, c2, c3, c4, c5 := OneMeeting(0, w);
    c := c5;
    ds := TunnelMeets(ds0, v, w, t, m, c1, c2, c3, c4);
    ds := LocalServes(ds, v, w, t, m, c4, c);
  }

  lemma PipeAtTheClient(ds0: seq<Deed>, v: nat, w: nat, t: Net, m: Match, c: Match) returns (ds: seq<Deed>)
    requires Got(ds0, AtClientSide(v, w, t, m, c, OneJob(w, Connected(0)), 1)) && t.up == SILENCE
    ensures Got(ds, AtClientSide(v, w, t, m, c, OnePipe(w, 0), 1).(localOf := map[w := 0]))
  {
    var g := AtClientSide(v, w, t, m, c, OneJob(w, Connected(0)), 1);
    hide Got, CanFeed, Fed;
    FeedNothing(w, t, Up);
    assert Registered(OneJob(w, Connected(0)), w) == OnePipe(w, 0);
    assert CanDo(g, JoinsLocal(w));
    assert AfterDeed(g, JoinsLocal(w)) == AtClientSide(v, w, t, m, c, OnePipe(w, 0), 1).(localOf := map[w := 0]);
    GotOne(ds0, g, JoinsLocal(w));
    ds := ds0 + [JoinsLocal(w)];
  }

  /** A visitor has come and reaches local connection 0 through tunnel w, which is piped at both ends. */
  lemma VisitorConnects(now: Time, hello: Msg, visit: Msg, v: nat, w: nat) returns (ds: seq<Deed>, g: World)
    requires hello.WorkerHello? && Sendable(hello) && visit.VisitTcpShare? && Sendable(visit)
    ensures Got(ds, g) && Reaches(g.share, v, 0) && Carries(g, w, v, 0)
    ensures forall x: nat :: x != w ==> x !in g.visitorOf
    ensures g.visitorSent == g.localSent == map[]
    ensures var t := g.nets[w];
            Piped(t.conn, true) && Piped(t.conn, false) && t.up == SILENCE && t.down == SILENCE
  {
    var t, m, c;
    ds, t := OpensTunnel(now, hello, visit, w);
    hide Got, Piped;
    ds, m := TakesWorker(ds, v, w, t);
    ds := PipeAtTheServer(ds, v, w, t, m);
    ds, c := AcceptsTunnel(ds, v, w, t, m);
    ds := PipeAtTheClient(ds, v, w, t, m, c);
    g := AtClientSide(v, w, t, m, c, OnePipe(w, 0), 1).(localOf := map[w := 0]);
    ReachesBy(g.share, v, w, 0);
  }

  lemma ReachesBy(s: Share, v: nat, w: nat, l: nat)
    requires s.visitors == OnePipe(v, w) && s.tunnels == OnePipe(w, l)
    ensures Reaches(s, v, l)
  {
    assert 0 in s.visitors.pipes && 0 in s.tunnels.pipes;
  }

  function UserSends(w: nat, dir: Dir, bs: Bytes): Deed {
    if dir == Down then VisitorSendsOn(w, bs) else LocalSendsOn(w, bs)
  }

  /** The user at the source of a direction sends some bytes and ends. */
  lemma SendsAll(g: World, v: nat, l: nat, w: nat, dir: Dir, bs: Bytes)
    requires Carries(g, w, v, l) && FlowOf(g.nets[w], dir) == SILENCE && SentIn(g, v, l, dir) == []
    requires Piped(g.nets[w].conn, true) && Piped(g.nets[w].conn, false)
    ensures CanDo(g, UserSends(w, dir, bs))
    ensures var g1 := AfterDeed(g, UserSends(w, dir, bs));
            && CanDo(g1, InTunnel(w, SendEof(dir)))
            && var g2 := AfterDeed(g1, InTunnel(w, SendEof(dir)));
               && g2.share == g.share && g2.visitorOf == g.visitorOf && Carries(g2, w, v, l)
               && Healthy(g2.nets[w], dir) && SentIn(g2, v, l, dir) == bs
  {
    var none: Bytes := [];
    assert none + bs == bs;
    hide Piped;
  }

  /**
   From nothing, for any visitor, any tunnel, any direction and any bytes, there is a run
   in which the visitor reaches a local connection and the user at the other end gets
   exactly those bytes.
   */
  lemma AnyBytesReachTheUser(
      now: Time, hello: Msg, visit: Msg, v: nat, w: nat, dir: Dir, bs: Bytes) returns (ds: seq<Deed>, l: nat)
    requires hello.WorkerHello? && Sendable(hello) && visit.VisitTcpShare? && Sendable(visit)
    ensures IsWorldRun(EMPTY_WORLD, ds)
    ensures var g := WorldAfter(EMPTY_WORLD, ds);
            Reaches(g.share, v, l) && SentIn(g, v, l, dir) == GotIn(g, v, l, dir) == bs
  {
    var g;
    ds, g := VisitorConnects(now, hello, visit, v, w);
    l := 0;
    assert FlowOf(g.nets[w], dir) == SILENCE && SentIn(g, v, l, dir) == [];
    hide *;
    SendsAll(g, v, l, w, dir, bs);
    var d1, d2 := UserSends(w, dir, bs), InTunnel(w, SendEof(dir));
    SendsAreFair(g, w, dir, bs);
    GotOne(ds, g, d1);
    var g1 := AfterDeed(g, d1);
    GotOne(ds + [d1], g1, d2);
    var g2 := AfterDeed(g1, d2);
    ds := ds + [d1] + [d2];
    ds := Finish(ds, g2, v, l, w, dir);
  }

  lemma SendsAreFair(g: World, w: nat, dir: Dir, bs: Bytes)
    requires CanDo(g, UserSends(w, dir, bs))
    requires CanDo(AfterDeed(g, UserSends(w, dir, bs)), InTunnel(w, SendEof(dir)))
    ensures FairDeed(g, UserSends(w, dir, bs))
    ensures FairDeed(AfterDeed(g, UserSends(w, dir, bs)), InTunnel(w, SendEof(dir)))
  {
    hide CanDo, AfterDeed;
  }

  lemma Finish(ds0: seq<Deed>, g: World, v: nat, l: nat, w: nat, dir: Dir) returns (ds: seq<Deed>)
    requires Got(ds0, g) && Reaches(g.share, v, l) && Carries(g, w, v, l) && Healthy(g.nets[w], dir)
    requires forall x: nat :: x != w ==> x !in g.visitorOf
    ensures IsWorldRun(EMPTY_WORLD, ds)
    ensures var g' := WorldAfter(EMPTY_WORLD, ds);
            Reaches(g'.share, v, l) && SentIn(g', v, l, dir) == GotIn(g', v, l, dir) == SentIn(g, v, l, dir)
  {
    GotMeans(ds0, g);
    hide Got, IsWorldRun, WorldAfter, Healthy, Reaches, SentIn, GotIn;
    var w', ys := AllOfItArrives(ds0, v, l, dir);
    assert w' == w;
    hide Carries;
    GotMore(ds0, g, Deeds(w, ys));
    ds := ds0 + Deeds(w, ys);
    GotMeans(ds, WorldAfter(g, Deeds(w, ys)));
  }

  lemma GotMeans(ds: seq<Deed>, g: World)
    requires Got(ds, g)
    ensures IsWorldRun(EMPTY_WORLD, ds) && WorldAfter(EMPTY_WORLD, ds) == g
  {
  }
}

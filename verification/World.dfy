/**
 A whole share with all its tunnels: visitors and local connections send and receive,
 every tunnel carries bytes as one connection does, and the forwarders at both sides
 decide whom a tunnel joins.
 */
module World {
  import opened Framing
  import opened Session
  import opened Wire
  import opened Progress
  import opened Tunnel
  import opened Matching
  import opened Forwarder
  import opened Sharing

  /**
   `nets` are the tunnels by the name of their worker; `visitorOf` and `localOf` say
   whom the pipe at either side of a tunnel belongs to.  The last four are what visitors
   and local connections have sent and received so far.
   */
  datatype World = World(
    share: Share, nets: map<nat, Net>, visitorOf: map<nat, nat>, localOf: map<nat, nat>,
    visitorSent: map<nat, Bytes>, visitorGot: map<nat, Bytes>, localSent: map<nat, Bytes>, localGot: map<nat, Bytes>)

  const EMPTY_WORLD := World(NOTHING_YET, map[], map[], map[], map[], map[], map[], map[])

  function Get(m: map<nat, Bytes>, u: nat): Bytes { if u in m then m[u] else [] }

  function Added(m: map<nat, Bytes>, u: nat, bs: Bytes): map<nat, Bytes> { m[u := Get(m, u) + bs] }

  datatype Deed =
    | Opens(w: nat, now: Time)
    | InShare(a: Act)
    | JoinsVisitor(v: nat)
    | JoinsLocal(w: nat)
    | VisitorSends(v: nat, bs: Bytes)
    | VisitorSendsOn(w: nat, bs: Bytes)
    | LocalSends(l: nat, bs: Bytes)
    | LocalSendsOn(w: nat, bs: Bytes)
    | InTunnel(w: nat, x: Step)

  /** The worker a visitor is paired with, or the local connection a tunnel is paired with. */
  function Pairing(f: Fwd, d: nat): nat
    requires Paired(f, d)
  {
    f.jobs[d].up
  }

  /** A net is fed with what its end has sent. */
  predicate CanFeed(nets: map<nat, Net>, w: nat, dir: Dir, bs: Bytes) { w in nets && Can(nets[w], Send(dir, bs)) }

  function Fed(nets: map<nat, Net>, w: nat, dir: Dir, bs: Bytes): map<nat, Net>
    requires CanFeed(nets, w, dir, bs)
  {
    nets[w := Do(nets[w], Send(dir, bs))]
  }

  /**
   A worker is returned by its visit when its tunnel is piped at the server, and offered
   at the client when it is piped there.  Bytes leave a tunnel, and its source ends, only
   at a side that is joined.  What was sent before a side is joined is sent on by then.
   */
  predicate CanDo(g: World, d: Deed) {
    match d
    case Opens(w, _) => w !in g.nets
    case InShare(a) =>
      && CanAct(g.share, a) && !a.PipeAtServer? && !a.PipeAtClient?
      && (a.VisitReturns? ==>
            var w := OfferOf(g.share.server, a.v); w in g.nets && Piped(g.nets[w].conn, true))
      && (a.AtClient? && a.e.Offer? ==> a.e.w in g.nets && Piped(g.nets[a.e.w].conn, false))
    case JoinsVisitor(v) =>
      && CanAct(g.share, PipeAtServer(v))
      && CanFeed(g.nets, Pairing(g.share.visitors, v), Down, Get(g.visitorSent, v))
    case JoinsLocal(w) =>
      && CanAct(g.share, PipeAtClient(w))
      && CanFeed(g.nets, w, Up, Get(g.localSent, Pairing(g.share.tunnels, w)))
    case VisitorSends(v, _) => v !in g.visitorOf.Values
    case VisitorSendsOn(w, bs) => w in g.visitorOf && CanFeed(g.nets, w, Down, bs)
    case LocalSends(l, _) => l !in g.localOf.Values
    case LocalSendsOn(w, bs) => w in g.localOf && CanFeed(g.nets, w, Up, bs)
    case InTunnel(w, x) =>
      && w in g.nets && Can(g.nets[w], x) && !x.Send?
      && ((x.Write2? && x.dir == Down) || (x.SendEof? && x.dir == Up) ==> w in g.localOf)
      && ((x.Write2? && x.dir == Up) || (x.SendEof? && x.dir == Down) ==> w in g.visitorOf)
  }

  ghost predicate FairDeed(g: World, d: Deed)
    requires CanDo(g, d)
  {
    d.InTunnel? ==> Fair(g.nets[d.w], d.x)
  }

  /** The bytes that a step brings out of a tunnel at the end of a direction. */
  function Out(t: Net, x: Step, dir: Dir): Bytes
    requires Can(t, x)
  {
    if x.Write2? && x.dir == dir then FlowOf(t, dir).second.hand[..x.n] else []
  }

  function AfterDeed(g: World, d: Deed): World
    requires CanDo(g, d)
  {
    match d
    case Opens(w, now) => g.(nets := g.nets[w := Opening(now)])
    case InShare(a) => g.(share := Acted(g.share, a))
    case JoinsVisitor(v) =>
      var w := Pairing(g.share.visitors, v);
      g.(share := Acted(g.share, PipeAtServer(v)), visitorOf := g.visitorOf[w := v],
         nets := Fed(g.nets, w, Down, Get(g.visitorSent, v)))
    case JoinsLocal(w) =>
      var l := Pairing(g.share.tunnels, w);
      g.(share := Acted(g.share, PipeAtClient(w)), localOf := g.localOf[w := l],
         nets := Fed(g.nets, w, Up, Get(g.localSent, l)))
    case VisitorSends(v, bs) => g.(visitorSent := Added(g.visitorSent, v, bs))
    case VisitorSendsOn(w, bs) =>
      g.(visitorSent := Added(g.visitorSent, g.visitorOf[w], bs), nets := Fed(g.nets, w, Down, bs))
    case LocalSends(l, bs) => g.(localSent := Added(g.localSent, l, bs))
    case LocalSendsOn(w, bs) =>
      g.(localSent := Added(g.localSent, g.localOf[w], bs), nets := Fed(g.nets, w, Up, bs))
    case InTunnel(w, x) =>
      g.(nets := g.nets[w := Do(g.nets[w], x)],
         localGot := if w in g.localOf then Added(g.localGot, g.localOf[w], Out(g.nets[w], x, Down)) else g.localGot,
         visitorGot := if w in g.visitorOf then Added(g.visitorGot, g.visitorOf[w], Out(g.nets[w], x, Up))
           else g.visitorGot)
  }

  ghost predicate IsWorldRun(g: World, ds: seq<Deed>)
    decreases |ds|
  {
    ds == [] || (CanDo(g, ds[0]) && FairDeed(g, ds[0]) && IsWorldRun(AfterDeed(g, ds[0]), ds[1..]))
  }

  ghost function WorldAfter(g: World, ds: seq<Deed>): World
    requires IsWorldRun(g, ds)
    decreases |ds|
  {
    if ds == [] then g else WorldAfter(AfterDeed(g, ds[0]), ds[1..])
  }

  // ---- One side of all tunnels ---------------------------------------------------------

  /**
   One side, whose users send in direction dir: a tunnel joined to a user has been sent
   what that user sent and has delivered what that user got; any other has neither.
   */
  ghost predicate SideInv(
    nets: map<nat, Net>, userOf: map<nat, nat>, sent: map<nat, Bytes>, got: map<nat, Bytes>, dir: Dir)
  {
    && (forall w <- userOf :: w in nets)
    && (forall w, x :: w in userOf && x in userOf && userOf[w] == userOf[x] ==> w == x)
    && (forall w <- nets ::
          && FlowOf(nets[w], dir).sent == (if w in userOf then Get(sent, userOf[w]) else [])
          && FlowOf(nets[w], Opposite(dir)).delivered == (if w in userOf then Get(got, userOf[w]) else []))
    && (forall u: nat :: u !in userOf.Values ==> Get(got, u) == [])
  }

  /** Nothing changed on this side. */
  lemma SideUntouched(
    nets: map<nat, Net>, userOf: map<nat, nat>, sent: map<nat, Bytes>, got: map<nat, Bytes>, dir: Dir, w: nat, t: Net)
    requires SideInv(nets, userOf, sent, got, dir)
    requires w in nets && FlowOf(t, dir).sent == FlowOf(nets[w], dir).sent
    requires FlowOf(t, Opposite(dir)).delivered == FlowOf(nets[w], Opposite(dir)).delivered
    ensures SideInv(nets[w := t], userOf, sent, got, dir)
  {
    hide FlowOf;
  }

  lemma SideOpens(
    nets: map<nat, Net>, userOf: map<nat, nat>, sent: map<nat, Bytes>, got: map<nat, Bytes>, dir: Dir, w: nat,
      now: Time)
    requires SideInv(nets, userOf, sent, got, dir) && w !in nets
    ensures SideInv(nets[w := Opening(now)], userOf, sent, got, dir)
  {
    assert FlowOf(Opening(now), Up) == SILENCE && FlowOf(Opening(now), Down) == SILENCE;
    hide FlowOf, Opening;
  }

  /** A user that is not joined yet sends. */
  lemma SideSends(
    nets: map<nat, Net>, userOf: map<nat, nat>, sent: map<nat, Bytes>, got: map<nat, Bytes>, dir: Dir, u: nat,
      bs: Bytes)
    requires SideInv(nets, userOf, sent, got, dir) && u !in userOf.Values
    ensures SideInv(nets, userOf, Added(sent, u, bs), got, dir)
  {
    hide FlowOf;
    assert forall w <- userOf :: userOf[w] in userOf.Values;
  }

  /** A joined user sends, and its tunnel is sent the same. */
  lemma SideSendsOn(
    nets: map<nat, Net>, userOf: map<nat, nat>, sent: map<nat, Bytes>, got: map<nat, Bytes>, dir: Dir, w: nat,
      bs: Bytes,
    t: Net)
    requires SideInv(nets, userOf, sent, got, dir) && w in userOf
    requires FlowOf(t, dir).sent == FlowOf(nets[w], dir).sent + bs
    requires FlowOf(t, Opposite(dir)).delivered == FlowOf(nets[w], Opposite(dir)).delivered
    ensures SideInv(nets[w := t], userOf, Added(sent, userOf[w], bs), got, dir)
  {
    hide FlowOf;
  }

  /** A joined user gets what its tunnel delivers. */
  lemma SideGets(
    nets: map<nat, Net>, userOf: map<nat, nat>, sent: map<nat, Bytes>, got: map<nat, Bytes>, dir: Dir, w: nat,
      bs: Bytes,
    t: Net)
    requires SideInv(nets, userOf, sent, got, dir) && w in userOf
    requires FlowOf(t, dir).sent == FlowOf(nets[w], dir).sent
    requires FlowOf(t, Opposite(dir)).delivered == FlowOf(nets[w], Opposite(dir)).delivered + bs
    ensures SideInv(nets[w := t], userOf, sent, Added(got, userOf[w], bs), dir)
  {
    hide FlowOf;
    assert userOf[w] in userOf.Values;
  }

  /** A user is joined to a tunnel that had none, which is sent what the user had sent by then. */
  lemma SideJoins(
    nets: map<nat, Net>, userOf: map<nat, nat>, sent: map<nat, Bytes>, got: map<nat, Bytes>, dir: Dir, w: nat,
      u: nat, t: Net)
    requires SideInv(nets, userOf, sent, got, dir) && w in nets && w !in userOf && u !in userOf.Values
    requires FlowOf(t, dir).sent == FlowOf(nets[w], dir).sent + Get(sent, u)
    requires FlowOf(t, Opposite(dir)).delivered == FlowOf(nets[w], Opposite(dir)).delivered
    ensures SideInv(nets[w := t], userOf[w := u], sent, got, dir)
  {
    hide FlowOf;
    var userOf' := userOf[w := u];
    assert userOf'[w] in userOf'.Values;
    assert forall y <- userOf :: userOf'[y] == userOf[y] && userOf'[y] in userOf'.Values;
    assert forall y <- userOf :: userOf[y] in userOf.Values;
    assert [] + Get(sent, u) == Get(sent, u);
  }

  // ---- Every deed keeps both sides in order -----------------------------------------------

  ghost predicate VisitorsJoined(f: Fwd, visitorOf: map<nat, nat>) {
    && (forall i <- f.pipes :: f.pipes[i].1 in visitorOf && visitorOf[f.pipes[i].1] == f.pipes[i].0)
    && (forall w <- visitorOf :: exists i :: i in f.pipes && f.pipes[i] == (visitorOf[w], w))
  }

  ghost predicate LocalsJoined(f: Fwd, localOf: map<nat, nat>) {
    && (forall i <- f.pipes :: f.pipes[i].0 in localOf && localOf[f.pipes[i].0] == f.pipes[i].1)
    && (forall w <- localOf :: exists i :: i in f.pipes && f.pipes[i] == (w, localOf[w]))
  }

  ghost predicate SoundNet(t: Net) { exists k :: Sound(t, k) }

  ghost predicate AllSound(nets: map<nat, Net>) { forall w <- nets :: SoundNet(nets[w]) }

  ghost predicate VisitorSide(g: World) {
    SideInv(g.nets, g.visitorOf, g.visitorSent, g.visitorGot, Down) && VisitorsJoined(g.share.visitors, g.visitorOf)
  }

  ghost predicate LocalSide(g: World) {
    SideInv(g.nets, g.localOf, g.localSent, g.localGot, Up) && LocalsJoined(g.share.tunnels, g.localOf)
  }

  ghost predicate WorldInv(g: World) {
    ShareInv(g.share) && AllSound(g.nets) && VisitorSide(g) && LocalSide(g)
  }

  lemma Parts(g: World)
    requires WorldInv(g)
    ensures ShareInv(g.share) && AllSound(g.nets)
    ensures SideInv(g.nets, g.visitorOf, g.visitorSent, g.visitorGot, Down) &&
              VisitorsJoined(g.share.visitors, g.visitorOf)
    ensures SideInv(g.nets, g.localOf, g.localSent, g.localGot, Up) && LocalsJoined(g.share.tunnels, g.localOf)
  {
    hide ShareInv, SoundNet, SideInv, VisitorsJoined, LocalsJoined;
  }

  lemma Whole(g: World)
    requires ShareInv(g.share) && AllSound(g.nets)
    requires SideInv(g.nets, g.visitorOf, g.visitorSent, g.visitorGot, Down) &&
              VisitorsJoined(g.share.visitors, g.visitorOf)
    requires SideInv(g.nets, g.localOf, g.localSent, g.localGot, Up) && LocalsJoined(g.share.tunnels, g.localOf)
    ensures WorldInv(g)
  {
    hide ShareInv, SoundNet, SideInv, VisitorsJoined, LocalsJoined;
  }

  /** What a step inside a tunnel adds at its ends. */
  lemma StepAtEnds(t: Net, x: Step, dir: Dir)
    requires Can(t, x)
    ensures FlowOf(Do(t, x), dir).sent == FlowOf(t, dir).sent + (if x.Send? && x.dir == dir then x.bs else [])
    ensures FlowOf(Do(t, x), dir).delivered == FlowOf(t, dir).delivered + Out(t, x, dir)
  {
    hide ByteEnabled, ByteApply, BytesOf, Piped;
  }

  lemma StepStaysSound(t: Net, x: Step)
    requires SoundNet(t) && Can(t, x) && Fair(t, x)
    ensures SoundNet(Do(t, x))
  {
    hide Sound, Can, Do, Fair;
    var k :| Sound(t, k);
    var k' := StepSound(t, k, x);
  }

  lemma SendIsFair(t: Net, dir: Dir, bs: Bytes)
    ensures Fair(t, Send(dir, bs))
  {
  }

  lemma NetsWith(nets: map<nat, Net>, w: nat, t: Net)
    requires SoundNet(t) && AllSound(nets)
    ensures AllSound(nets[w := t])
  {
    hide SoundNet;
  }

  /** Feeding a tunnel from one side leaves the other side as it was. */
  lemma FedEnds(nets: map<nat, Net>, w: nat, dir: Dir, bs: Bytes)
    requires CanFeed(nets, w, dir, bs) && AllSound(nets)
    ensures Fed(nets, w, dir, bs) == nets[w := Do(nets[w], Send(dir, bs))] && AllSound(Fed(nets, w, dir, bs))
    ensures var t := Do(nets[w], Send(dir, bs));
            && FlowOf(t, dir).sent == FlowOf(nets[w], dir).sent + bs
            && FlowOf(t, Opposite(dir)).sent == FlowOf(nets[w], Opposite(dir)).sent
            && FlowOf(t, dir).delivered == FlowOf(nets[w], dir).delivered
            && FlowOf(t, Opposite(dir)).delivered == FlowOf(nets[w], Opposite(dir)).delivered
  {
    InNets(nets, w, dir, bs);
    FedIs(nets, w, dir, bs);
    SendEnds(nets[w], dir, bs);
    assert SoundNet(nets[w]);
    hide *;
    SendIsFair(nets[w], dir, bs);
    StepStaysSound(nets[w], Send(dir, bs));
    NetsWith(nets, w, Do(nets[w], Send(dir, bs)));
  }

  lemma FedIs(nets: map<nat, Net>, w: nat, dir: Dir, bs: Bytes)
    requires CanFeed(nets, w, dir, bs)
    ensures w in nets && Fed(nets, w, dir, bs) == nets[w := Do(nets[w], Send(dir, bs))]
  {
    hide Can, Do;
  }

  lemma SendEnds(t: Net, dir: Dir, bs: Bytes)
    requires Can(t, Send(dir, bs))
    ensures var t' := Do(t, Send(dir, bs));
            && FlowOf(t', dir).sent == FlowOf(t, dir).sent + bs
            && FlowOf(t', Opposite(dir)).sent == FlowOf(t, Opposite(dir)).sent
            && FlowOf(t', dir).delivered == FlowOf(t, dir).delivered
            && FlowOf(t', Opposite(dir)).delivered == FlowOf(t, Opposite(dir)).delivered
  {
  }

  /** The share acts without making a pipe. */
  lemma PipesSame(s: Share, a: Act)
    requires CanAct(s, a) && !a.PipeAtServer? && !a.PipeAtClient?
    ensures Acted(s, a).visitors.pipes == s.visitors.pipes && Acted(s, a).tunnels.pipes == s.tunnels.pipes
  {
    hide CanMove, Moved;
  }

  lemma InShareDoes(g: World, a: Act)
    requires CanDo(g, InShare(a))
    ensures CanAct(g.share, a) && !a.PipeAtServer? && !a.PipeAtClient?
    ensures AfterDeed(g, InShare(a)) == g.(share := Acted(g.share, a))
  {
    hide CanAct, Acted, Piped, Matching.OfferOf;
  }

  lemma JoinedElsewhere(f: Fwd, f': Fwd, visitorOf: map<nat, nat>)
    requires f'.pipes == f.pipes
    ensures VisitorsJoined(f', visitorOf) <==> VisitorsJoined(f, visitorOf)
    ensures LocalsJoined(f', visitorOf) <==> LocalsJoined(f, visitorOf)
  {
  }

  lemma InShareKept(g: World, a: Act)
    requires WorldInv(g) && CanDo(g, InShare(a))
    ensures WorldInv(AfterDeed(g, InShare(a)))
  {
    Parts(g);
    InShareDoes(g, a);
    hide *;
    ActKept(g.share, a);
    PipesSame(g.share, a);
    JoinedElsewhere(g.share.visitors, Acted(g.share, a).visitors, g.visitorOf);
    JoinedElsewhere(g.share.tunnels, Acted(g.share, a).tunnels, g.localOf);
    Whole(g.(share := Acted(g.share, a)));
  }

  lemma OpensDoes(g: World, w: nat, now: Time)
    requires CanDo(g, Opens(w, now))
    ensures w !in g.nets && AfterDeed(g, Opens(w, now)) == g.(nets := g.nets[w := Opening(now)])
  {
    hide Opening;
  }

  lemma OpeningIsSound(now: Time)
    ensures SoundNet(Opening(now))
  {
    hide Sound;
    OpeningSound(now);
  }

  lemma OpensKept(g: World, w: nat, now: Time)
    requires WorldInv(g) && CanDo(g, Opens(w, now))
    ensures WorldInv(AfterDeed(g, Opens(w, now)))
  {
    Parts(g);
    OpensDoes(g, w, now);
    hide *;
    OpeningIsSound(now);
    NetsWith(g.nets, w, Opening(now));
    SideOpens(g.nets, g.visitorOf, g.visitorSent, g.visitorGot, Down, w, now);
    SideOpens(g.nets, g.localOf, g.localSent, g.localGot, Up, w, now);
    Whole(g.(nets := g.nets[w := Opening(now)]));
  }

  lemma PipeAtServerDoes(s: Share, v: nat)
    requires ShareInv(s) && CanAct(s, PipeAtServer(v))
    ensures Paired(s.visitors, v)
    ensures var s' := Acted(s, PipeAtServer(v));
            && s.visitors.nextId !in s.visitors.pipes && s'.tunnels == s.tunnels
            && s'.visitors.pipes == s.visitors.pipes[s.visitors.nextId := (v, Pairing(s.visitors, v))]
  {
    hide MatchInv, TunnelsInv;
    RegisteredKept(s.visitors, v);
  }

  lemma PipeAtClientDoes(s: Share, w: nat)
    requires ShareInv(s) && CanAct(s, PipeAtClient(w))
    ensures Paired(s.tunnels, w)
    ensures var s' := Acted(s, PipeAtClient(w));
            && s.tunnels.nextId !in s.tunnels.pipes && s'.visitors == s.visitors
            && s'.tunnels.pipes == s.tunnels.pipes[s.tunnels.nextId := (w, Pairing(s.tunnels, w))]
  {
    hide MatchInv, VisitorsInv;
    RegisteredKept(s.tunnels, w);
  }

  /** A pipe made just now has neither the tunnel nor the user of an older one. */
  lemma OtherVisitor(g: World, s': Share, n: nat, v: nat, w: nat, x: nat)
    requires ShareInv(s') && VisitorsJoined(g.share.visitors, g.visitorOf) && n !in g.share.visitors.pipes
    requires s'.visitors.pipes == g.share.visitors.pipes[n := (v, w)] && x in g.visitorOf
    ensures x != w && g.visitorOf[x] != v
  {
    hide ShareInv;
    var i :| i in g.share.visitors.pipes && g.share.visitors.pipes[i] == (g.visitorOf[x], x);
    ServerPipes(s', i, n);
  }

  /** The new pipe at the server joins a worker and a visitor that were in none. */
  lemma VisitorIsNew(g: World, v: nat)
    requires ShareInv(g.share) && VisitorsJoined(g.share.visitors, g.visitorOf) && CanAct(g.share, PipeAtServer(v))
    ensures var w := Pairing(g.share.visitors, v);
            && w !in g.visitorOf && v !in g.visitorOf.Values
            && VisitorsJoined(Acted(g.share, PipeAtServer(v)).visitors, g.visitorOf[w := v])
            && Acted(g.share, PipeAtServer(v)).tunnels == g.share.tunnels
  {
    var s, s' := g.share, Acted(g.share, PipeAtServer(v));
    var w, n := Pairing(s.visitors, v), s.visitors.nextId;
    PipeAtServerDoes(s, v);
    hide ShareInv, CanAct, Acted, Pairing;
    ActKept(s, PipeAtServer(v));
    forall x | x in g.visitorOf ensures x != w && g.visitorOf[x] != v {
      OtherVisitor(g, s', n, v, w, x);
    }
    hide VisitorsJoined;
    JoinedVisitor(s.visitors, s'.visitors, g.visitorOf, n, v, w);
  }

  lemma JoinedVisitor(f: Fwd, f': Fwd, visitorOf: map<nat, nat>, n: nat, v: nat, w: nat)
    requires VisitorsJoined(f, visitorOf) && n !in f.pipes && f'.pipes == f.pipes[n := (v, w)] && w !in visitorOf
    ensures VisitorsJoined(f', visitorOf[w := v])
  {
    var after := visitorOf[w := v];
    forall x | x in after ensures exists i :: i in f'.pipes && f'.pipes[i] == (after[x], x) {
      if x == w {
        assert f'.pipes[n] == (v, w);
      } else {
        var i :| i in f.pipes && f.pipes[i] == (visitorOf[x], x);
        assert f'.pipes[i] == (after[x], x);
      }
    }
  }

  /** A pipe made just now has neither the tunnel nor the user of an older one. */
  lemma OtherLocal(g: World, s': Share, n: nat, l: nat, w: nat, x: nat)
    requires ShareInv(s') && LocalsJoined(g.share.tunnels, g.localOf) && n !in g.share.tunnels.pipes
    requires s'.tunnels.pipes == g.share.tunnels.pipes[n := (w, l)] && x in g.localOf
    ensures x != w && g.localOf[x] != l
  {
    hide ShareInv;
    var i :| i in g.share.tunnels.pipes && g.share.tunnels.pipes[i] == (x, g.localOf[x]);
    ClientPipes(s', i, n);
  }

  lemma LocalIsNew(g: World, w: nat)
    requires ShareInv(g.share) && LocalsJoined(g.share.tunnels, g.localOf) && CanAct(g.share, PipeAtClient(w))
    ensures var l := Pairing(g.share.tunnels, w);
            && w !in g.localOf && l !in g.localOf.Values
            && LocalsJoined(Acted(g.share, PipeAtClient(w)).tunnels, g.localOf[w := l])
            && Acted(g.share, PipeAtClient(w)).visitors == g.share.visitors
  {
    var s, s' := g.share, Acted(g.share, PipeAtClient(w));
    var l, n := Pairing(s.tunnels, w), s.tunnels.nextId;
    PipeAtClientDoes(s, w);
    hide ShareInv, CanAct, Acted, Pairing;
    ActKept(s, PipeAtClient(w));
    forall x | x in g.localOf ensures x != w && g.localOf[x] != l {
      OtherLocal(g, s', n, l, w, x);
    }
    hide LocalsJoined;
    JoinedLocal(s.tunnels, s'.tunnels, g.localOf, n, w, l);
  }

  lemma JoinedLocal(f: Fwd, f': Fwd, localOf: map<nat, nat>, n: nat, w: nat, l: nat)
    requires LocalsJoined(f, localOf) && n !in f.pipes && f'.pipes == f.pipes[n := (w, l)] && w !in localOf
    ensures LocalsJoined(f', localOf[w := l])
  {
    var after := localOf[w := l];
    forall x | x in after ensures exists i :: i in f'.pipes && f'.pipes[i] == (x, after[x]) {
      if x == w {
        assert f'.pipes[n] == (w, l);
      } else {
        var i :| i in f.pipes && f.pipes[i] == (x, localOf[x]);
        assert f'.pipes[i] == (x, after[x]);
      }
    }
  }

  lemma JoinsVisitorDoes(g: World, v: nat)
    requires CanDo(g, JoinsVisitor(v))
    ensures Paired(g.share.visitors, v) && CanAct(g.share, PipeAtServer(v))
    ensures var w, bs := Pairing(g.share.visitors, v), Get(g.visitorSent, v);
            && CanFeed(g.nets, w, Down, bs)
            && AfterDeed(g, JoinsVisitor(v)) ==
               g.(share := Acted(g.share, PipeAtServer(v)), visitorOf := g.visitorOf[w := v],
                  nets := Fed(g.nets, w, Down, bs))
  {
    hide Acted, CanFeed, Fed, Get;
  }

  lemma JoinsVisitorKept(g: World, v: nat)
    requires WorldInv(g) && CanDo(g, JoinsVisitor(v))
    ensures WorldInv(AfterDeed(g, JoinsVisitor(v)))
  {
    Parts(g);
    JoinsVisitorDoes(g, v);
    var w := Pairing(g.share.visitors, v);
    var bs := Get(g.visitorSent, v);
    InNets(g.nets, w, Down, bs);
    hide *;
    ActKept(g.share, PipeAtServer(v));
    VisitorIsNew(g, v);
    FedEnds(g.nets, w, Down, bs);
    OppositeIs();
    var t := Do(g.nets[w], Send(Down, bs));
    SideJoins(g.nets, g.visitorOf, g.visitorSent, g.visitorGot, Down, w, v, t);
    SideUntouched(g.nets, g.localOf, g.localSent, g.localGot, Up, w, t);
    Whole(AfterDeed(g, JoinsVisitor(v)));
  }

  lemma OppositeIs()
    ensures Opposite(Up) == Down && Opposite(Down) == Up
  {
  }

  lemma JoinsLocalDoes(g: World, w: nat)
    requires CanDo(g, JoinsLocal(w))
    ensures Paired(g.share.tunnels, w) && CanAct(g.share, PipeAtClient(w))
    ensures var l := Pairing(g.share.tunnels, w);
            var bs := Get(g.localSent, l);
            && CanFeed(g.nets, w, Up, bs)
            && AfterDeed(g, JoinsLocal(w)) ==
               g.(share := Acted(g.share, PipeAtClient(w)), localOf := g.localOf[w := l],
                  nets := Fed(g.nets, w, Up, bs))
  {
    hide Acted, CanFeed, Fed, Get;
  }

  lemma JoinsLocalKept(g: World, w: nat)
    requires WorldInv(g) && CanDo(g, JoinsLocal(w))
    ensures WorldInv(AfterDeed(g, JoinsLocal(w)))
  {
    Parts(g);
    JoinsLocalDoes(g, w);
    var l := Pairing(g.share.tunnels, w);
    var bs := Get(g.localSent, l);
    InNets(g.nets, w, Up, bs);
    hide *;
    ActKept(g.share, PipeAtClient(w));
    LocalIsNew(g, w);
    FedEnds(g.nets, w, Up, bs);
    OppositeIs();
    var t := Do(g.nets[w], Send(Up, bs));
    SideJoins(g.nets, g.localOf, g.localSent, g.localGot, Up, w, l, t);
    SideUntouched(g.nets, g.visitorOf, g.visitorSent, g.visitorGot, Down, w, t);
    Whole(AfterDeed(g, JoinsLocal(w)));
  }

  lemma SendsDoes(g: World, d: Deed)
    requires CanDo(g, d) && (d.VisitorSends? || d.LocalSends?)
    ensures d.VisitorSends? ==>
              d.v !in g.visitorOf.Values && AfterDeed(g, d) == g.(visitorSent := Added(g.visitorSent, d.v, d.bs))
    ensures d.LocalSends? ==>
              d.l !in g.localOf.Values && AfterDeed(g, d) == g.(localSent := Added(g.localSent, d.l, d.bs))
  {
    hide Added;
  }

  lemma SendsKept(g: World, d: Deed)
    requires WorldInv(g) && CanDo(g, d) && (d.VisitorSends? || d.LocalSends?)
    ensures WorldInv(AfterDeed(g, d))
  {
    Parts(g);
    SendsDoes(g, d);
    hide *;
    if d.VisitorSends? {
      SideSends(g.nets, g.visitorOf, g.visitorSent, g.visitorGot, Down, d.v, d.bs);
    } else {
      SideSends(g.nets, g.localOf, g.localSent, g.localGot, Up, d.l, d.bs);
    }
    Whole(AfterDeed(g, d));
  }

  lemma VisitorSendsOnKept(g: World, w: nat, bs: Bytes)
    requires WorldInv(g) && CanDo(g, VisitorSendsOn(w, bs))
    ensures WorldInv(AfterDeed(g, VisitorSendsOn(w, bs)))
  {
    hide ShareInv, SideInv, SoundNet, VisitorsJoined, LocalsJoined, CanFeed, Fed, FlowOf, Can, Do;
    FedEnds(g.nets, w, Down, bs);
    InNets(g.nets, w, Down, bs);
    var t := Do(g.nets[w], Send(Down, bs));
    SideSendsOn(g.nets, g.visitorOf, g.visitorSent, g.visitorGot, Down, w, bs, t);
    SideUntouched(g.nets, g.localOf, g.localSent, g.localGot, Up, w, t);
  }

  lemma LocalSendsOnKept(g: World, w: nat, bs: Bytes)
    requires WorldInv(g) && CanDo(g, LocalSendsOn(w, bs))
    ensures WorldInv(AfterDeed(g, LocalSendsOn(w, bs)))
  {
    hide ShareInv, SideInv, SoundNet, VisitorsJoined, LocalsJoined, CanFeed, Fed, FlowOf, Can, Do;
    FedEnds(g.nets, w, Up, bs);
    InNets(g.nets, w, Up, bs);
    var t := Do(g.nets[w], Send(Up, bs));
    SideSendsOn(g.nets, g.localOf, g.localSent, g.localGot, Up, w, bs, t);
    SideUntouched(g.nets, g.visitorOf, g.visitorSent, g.visitorGot, Down, w, t);
  }

  lemma InNets(nets: map<nat, Net>, w: nat, dir: Dir, bs: Bytes)
    requires CanFeed(nets, w, dir, bs)
    ensures w in nets && Can(nets[w], Send(dir, bs))
  {
    hide Can;
  }

  /** Inside a tunnel, each side gets what its end delivers. */
  lemma SideSteps(
    nets: map<nat, Net>, userOf: map<nat, nat>, sent: map<nat, Bytes>, got: map<nat, Bytes>, dir: Dir, w: nat, x: Step)
    requires SideInv(nets, userOf, sent, got, dir) && w in nets && Can(nets[w], x) && !x.Send?
    requires x.Write2? && x.dir == Opposite(dir) ==> w in userOf
    ensures var got' := if w in userOf then Added(got, userOf[w], Out(nets[w], x, Opposite(dir))) else got;
            SideInv(nets[w := Do(nets[w], x)], userOf, sent, got', dir)
  {
    StepAtEnds(nets[w], x, dir);
    StepAtEnds(nets[w], x, Opposite(dir));
    var t := Do(nets[w], x);
    assert FlowOf(nets[w], dir).sent + [] == FlowOf(nets[w], dir).sent;
    if w in userOf {
      hide SideInv, Can, Do, FlowOf, Out;
      SideGets(nets, userOf, sent, got, dir, w, Out(nets[w], x, Opposite(dir)), t);
    } else {
      assert Out(nets[w], x, Opposite(dir)) == [];
      hide SideInv, Can, Do, FlowOf, Out;
      SideUntouched(nets, userOf, sent, got, dir, w, t);
    }
  }

  lemma SoundAt(nets: map<nat, Net>, w: nat)
    requires AllSound(nets) && w in nets
    ensures SoundNet(nets[w])
  {
    hide SoundNet;
  }

  lemma InTunnelKept(g: World, w: nat, x: Step)
    requires WorldInv(g) && CanDo(g, InTunnel(w, x)) && Fair(g.nets[w], x)
    ensures WorldInv(AfterDeed(g, InTunnel(w, x)))
  {
    hide ShareInv, SideInv, SoundNet, VisitorsJoined, LocalsJoined, FlowOf, Can, Do, Fair, Out, AllSound;
    SoundAt(g.nets, w);
    StepStaysSound(g.nets[w], x);
    NetsWith(g.nets, w, Do(g.nets[w], x));
    SideSteps(g.nets, g.visitorOf, g.visitorSent, g.visitorGot, Down, w, x);
    SideSteps(g.nets, g.localOf, g.localSent, g.localGot, Up, w, x);
  }

  lemma DeedKept(g: World, d: Deed)
    requires WorldInv(g) && CanDo(g, d) && FairDeed(g, d)
    ensures WorldInv(AfterDeed(g, d))
  {
    match d
    case Opens(w, now) =>
      hide *;
      OpensKept(g, w, now);
    case InShare(a) =>
      hide *;
      InShareKept(g, a);
    case JoinsVisitor(v) =>
      hide *;
      JoinsVisitorKept(g, v);
    case JoinsLocal(w) =>
      hide *;
      JoinsLocalKept(g, w);
    case VisitorSendsOn(w, bs) =>
      hide *;
      VisitorSendsOnKept(g, w, bs);
    case LocalSendsOn(w, bs) =>
      hide *;
      LocalSendsOnKept(g, w, bs);
    case InTunnel(w, x) =>
      hide WorldInv, AfterDeed, Can, Fair;
      InTunnelKept(g, w, x);
    case _ =>
      hide *;
      SendsKept(g, d);
  }

  lemma {:induction false} WorldRunKept(g: World, ds: seq<Deed>)
    requires WorldInv(g) && IsWorldRun(g, ds)
    ensures WorldInv(WorldAfter(g, ds))
    decreases |ds|
  {
    hide WorldInv, CanDo, FairDeed, AfterDeed;
    if ds != [] {
      DeedKept(g, ds[0]);
      WorldRunKept(AfterDeed(g, ds[0]), ds[1..]);
    }
  }

  lemma EmptyWorldInv()
    ensures WorldInv(EMPTY_WORLD)
  {
    QuietInv();
    hide ShareInv;
  }

  // ---- Whose bytes arrive where ------------------------------------------------------------

  lemma SoundIsTransparent(t: Net, dir: Dir)
    requires SoundNet(t)
    ensures FlowOf(t, dir).delivered <= FlowOf(t, dir).sent
  {
    hide Reachable, AllSendable, Concrete;
    var k :| Sound(t, k);
  }

  /** What a tunnel says about its user at one side. */
  lemma UserOfTunnel(
    nets: map<nat, Net>, userOf: map<nat, nat>, sent: map<nat, Bytes>, got: map<nat, Bytes>, dir: Dir, w: nat)
    requires SideInv(nets, userOf, sent, got, dir) && w in nets
    ensures w in userOf ==> FlowOf(nets[w], dir).sent == Get(sent, userOf[w])
    ensures w in userOf ==> FlowOf(nets[w], Opposite(dir)).delivered == Get(got, userOf[w])
    ensures w !in userOf ==> FlowOf(nets[w], dir).sent == []
  {
    hide FlowOf;
  }

  lemma TunnelOfUser(
    nets: map<nat, Net>, userOf: map<nat, nat>, sent: map<nat, Bytes>, got: map<nat, Bytes>, dir: Dir,
      u: nat) returns (w: nat)
    requires SideInv(nets, userOf, sent, got, dir) && Get(got, u) != []
    ensures w in nets && w in userOf && userOf[w] == u
  {
    hide FlowOf;
    assert u in userOf.Values;
    w :| w in userOf && userOf[w] == u;
  }

  /** A tunnel that is joined at both sides carries the one's bytes to the other. */
  lemma TunnelCarries(g: World, w: nat)
    requires WorldInv(g) && w in g.nets && w in g.visitorOf && w in g.localOf
    ensures Get(g.localGot, g.localOf[w]) <= Get(g.visitorSent, g.visitorOf[w])
    ensures Get(g.visitorGot, g.visitorOf[w]) <= Get(g.localSent, g.localOf[w])
  {
    Parts(g);
    hide *;
    OppositeIs();
    UserOfTunnel(g.nets, g.visitorOf, g.visitorSent, g.visitorGot, Down, w);
    UserOfTunnel(g.nets, g.localOf, g.localSent, g.localGot, Up, w);
    SoundAt(g.nets, w);
    SoundIsTransparent(g.nets[w], Up);
    SoundIsTransparent(g.nets[w], Down);
  }

  /** Whom a visitor reaches, it reaches through one tunnel. */
  lemma ReachesThrough(g: World, v: nat, l: nat) returns (w: nat)
    requires VisitorsJoined(g.share.visitors, g.visitorOf) && LocalsJoined(g.share.tunnels, g.localOf)
    requires Reaches(g.share, v, l)
    ensures w in g.visitorOf && g.visitorOf[w] == v && w in g.localOf && g.localOf[w] == l
  {
    var i, j :| i in g.share.visitors.pipes && j in g.share.tunnels.pipes && g.share.visitors.pipes[i].0 == v
                && g.share.visitors.pipes[i].1 == g.share.tunnels.pipes[j].0 && g.share.tunnels.pipes[j].1 == l;
    w := g.share.visitors.pipes[i].1;
  }

  lemma JoinedBytes(g: World, v: nat, l: nat)
    requires WorldInv(g) && Reaches(g.share, v, l)
    ensures Get(g.localGot, l) <= Get(g.visitorSent, v) && Get(g.visitorGot, v) <= Get(g.localSent, l)
  {
    Parts(g);
    hide *;
    var w := ReachesThrough(g, v, l);
    JoinedIsOpen(g.nets, g.visitorOf, g.visitorSent, g.visitorGot, Down, w);
    TunnelCarries(g, w);
  }

  lemma JoinedIsOpen(
    nets: map<nat, Net>, userOf: map<nat, nat>, sent: map<nat, Bytes>, got: map<nat, Bytes>, dir: Dir, w: nat)
    requires SideInv(nets, userOf, sent, got, dir) && w in userOf
    ensures w in nets
  {
    hide FlowOf;
  }

  /** A tunnel joined at both sides is a way from its visitor to its local connection. */
  lemma WayThrough(g: World, w: nat)
    requires VisitorsJoined(g.share.visitors, g.visitorOf) && LocalsJoined(g.share.tunnels, g.localOf)
    requires w in g.visitorOf && w in g.localOf
    ensures Reaches(g.share, g.visitorOf[w], g.localOf[w])
  {
    var i :| i in g.share.visitors.pipes && g.share.visitors.pipes[i] == (g.visitorOf[w], w);
    var j :| j in g.share.tunnels.pipes && g.share.tunnels.pipes[j] == (w, g.localOf[w]);
    assert g.share.visitors.pipes[i].1 == g.share.tunnels.pipes[j].0;
  }

  /** Whoever got something is joined to someone, who sent it. */
  lemma SomeoneSent(g: World, l: nat) returns (v: nat)
    requires WorldInv(g) && Get(g.localGot, l) != []
    ensures Reaches(g.share, v, l)
  {
    Parts(g);
    hide *;
    OppositeIs();
    var w := TunnelOfUser(g.nets, g.localOf, g.localSent, g.localGot, Up, l);
    UserOfTunnel(g.nets, g.localOf, g.localSent, g.localGot, Up, w);
    UserOfTunnel(g.nets, g.visitorOf, g.visitorSent, g.visitorGot, Down, w);
    SoundAt(g.nets, w);
    SoundIsTransparent(g.nets[w], Down);
    WayThrough(g, w);
    v := g.visitorOf[w];
  }

  lemma SomeoneAnswered(g: World, v: nat) returns (l: nat)
    requires WorldInv(g) && Get(g.visitorGot, v) != []
    ensures Reaches(g.share, v, l)
  {
    Parts(g);
    hide *;
    OppositeIs();
    var w := TunnelOfUser(g.nets, g.visitorOf, g.visitorSent, g.visitorGot, Down, v);
    UserOfTunnel(g.nets, g.visitorOf, g.visitorSent, g.visitorGot, Down, w);
    UserOfTunnel(g.nets, g.localOf, g.localSent, g.localGot, Up, w);
    SoundAt(g.nets, w);
    SoundIsTransparent(g.nets[w], Up);
    WayThrough(g, w);
    l := g.localOf[w];
  }

  /**
   In every run of a whole share: a local connection gets a prefix of what the visitor that
   reaches it sent, and the visitor a prefix of what the local connection sent; and whoever
   got anything at all is reached, so no byte comes from anybody else.
   */
  lemma EveryoneGetsTheirOwn(ds: seq<Deed>)
    requires IsWorldRun(EMPTY_WORLD, ds)
    ensures var g := WorldAfter(EMPTY_WORLD, ds);
            && (forall v, l :: Reaches(g.share, v, l) ==>
                  Get(g.localGot, l) <= Get(g.visitorSent, v) && Get(g.visitorGot, v) <= Get(g.localSent, l))
            && (forall v, l, v', l' :: Reaches(g.share, v, l) && Reaches(g.share, v', l') ==> (v == v' <==> l == l'))
            && (forall l: nat :: Get(g.localGot, l) != [] ==> exists v :: Reaches(g.share, v, l))
            && (forall v: nat :: Get(g.visitorGot, v) != [] ==> exists l :: Reaches(g.share, v, l))
  {
    EmptyWorldInv();
    hide WorldInv, Reaches, Get, ShareInv;
    WorldRunKept(EMPTY_WORLD, ds);
    var g := WorldAfter(EMPTY_WORLD, ds);
    forall v, l | Reaches(g.share, v, l)
      ensures Get(g.localGot, l) <= Get(g.visitorSent, v) && Get(g.visitorGot, v) <= Get(g.localSent, l)
    {
      JoinedBytes(g, v, l);
    }
    forall l: nat | Get(g.localGot, l) != [] ensures exists v :: Reaches(g.share, v, l) {
      var v := SomeoneSent(g, l);
    }
    forall v: nat | Get(g.visitorGot, v) != [] ensures exists l :: Reaches(g.share, v, l) {
      var l := SomeoneAnswered(g, v);
    }
    ShareOf(g);
    ReachesOneToOne(g.share);
  }

  lemma ShareOf(g: World)
    requires WorldInv(g)
    ensures ShareInv(g.share)
  {
    hide ShareInv, VisitorSide, LocalSide, SoundNet;
  }
}

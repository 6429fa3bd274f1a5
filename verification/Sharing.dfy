/**
 One share from the visitors to the local service: visitors take workers at the
 server, the tunnel sockets of those workers are accepted by the client's forwarder,
 and each of them gets a connection to the local service.  A worker and the tunnel
 socket at its two ends have one name.
 */
module Sharing {
  import opened Seqs
  import opened WaitQueue
  import opened Matching
  import opened Forwarder

  /** `server` and `client` are the rendezvous queues, `visitors` and `tunnels` the forwarders fed from them. */
  datatype Share = Share(server: Match, visitors: Fwd, client: Match, tunnels: Fwd, locals: nat)

  const NOTHING_YET := Share(NO_MATCH, NO_PIPES, NO_MATCH, NO_PIPES, 0)

  datatype Act =
    | VisitorComes(v: nat)
    | AtServer(e: Move)
    | VisitReturns(v: nat)
    | VisitFails(v: nat)
    | PipeAtServer(v: nat)
    | AtClient(e: Move)
    | TunnelAccepted(k: nat)
    | LocalConnects(w: nat)
    | LocalFails(w: nat)
    | PipeAtClient(w: nat)

  predicate CanAct(s: Share, a: Act) {
    match a
    case VisitorComes(v) => v !in s.visitors.jobs && CanMove(s.server, Want(v))
    case AtServer(e) => !e.Want? && CanMove(s.server, e)
    case VisitReturns(v) => Waits(s.visitors, v) && v in s.server.taken && s.server.taken[v] < |s.server.q.values|
    case VisitFails(v) => Waits(s.visitors, v)
    case PipeAtServer(v) => Paired(s.visitors, v)
    case AtClient(e) => !e.Resume? && !e.Die? && CanMove(s.client, e)
    case TunnelAccepted(k) => CanMove(s.client, Resume(k))
    case LocalConnects(w) => Waits(s.tunnels, w)
    case LocalFails(w) => Waits(s.tunnels, w)
    case PipeAtClient(w) => Paired(s.tunnels, w)
  }

  /** A new connection to the local service has a name that none had before. */
  function Acted(s: Share, a: Act): Share
    requires CanAct(s, a)
  {
    match a
    case VisitorComes(v) => s.(visitors := Accepted(s.visitors, v), server := Moved(s.server, Want(v)))
    case AtServer(e) => s.(server := Moved(s.server, e))
    case VisitReturns(v) => s.(visitors := Upstream(s.visitors, v, OfferOf(s.server, v)))
    case VisitFails(v) => s.(visitors := UpstreamFailed(s.visitors, v))
    case PipeAtServer(v) => s.(visitors := Registered(s.visitors, v))
    case AtClient(e) => s.(client := Moved(s.client, e))
    case TunnelAccepted(k) =>
      s.(client := Moved(s.client, Resume(k)), tunnels := Accepted(s.tunnels, s.client.q.values[k]))
    case LocalConnects(w) => s.(tunnels := Upstream(s.tunnels, w, s.locals), locals := s.locals + 1)
    case LocalFails(w) => s.(tunnels := UpstreamFailed(s.tunnels, w))
    case PipeAtClient(w) => s.(tunnels := Registered(s.tunnels, w))
  }

  ghost predicate IsShareRun(s: Share, acts: seq<Act>)
    decreases |acts|
  {
    acts == [] || (CanAct(s, acts[0]) && IsShareRun(Acted(s, acts[0]), acts[1..]))
  }

  ghost function ShareAfter(s: Share, acts: seq<Act>): Share
    requires IsShareRun(s, acts)
    decreases |acts|
  {
    if acts == [] then s else ShareAfter(Acted(s, acts[0]), acts[1..])
  }

  /** A visitor is paired with the worker it took. */
  ghost predicate VisitorsInv(m: Match, f: Fwd) {
    && FwdInv(f)
    && (forall v: nat, u: nat :: HasUpstream(f, v, u) ==>
          v in m.taken && m.taken[v] < |m.q.values| && OfferOf(m, v) == u)
  }

  /** An accepted tunnel was handed over and resumed on, and local connections are fresh. */
  ghost predicate TunnelsInv(m: Match, f: Fwd, locals: nat) {
    && FwdInv(f) && m.gone == {}
    && (forall w <- f.jobs :: exists k :: k in m.resumed && k < |m.q.values| && m.q.values[k] == w)
    && (forall w: nat, u: nat :: HasUpstream(f, w, u) ==> u < locals)
    && (forall w: nat, w': nat, u: nat :: HasUpstream(f, w, u) && HasUpstream(f, w', u) ==> w == w')
  }

  ghost predicate ShareInv(s: Share) {
    && MatchInv(s.server) && MatchInv(s.client)
    && VisitorsInv(s.server, s.visitors) && TunnelsInv(s.client, s.tunnels, s.locals)
  }

  /** What was taken stays taken by the same taker, and what was handed over stays handed over. */
  lemma TakenStays(m: Match, e: Move)
    requires MatchInv(m) && CanMove(m, e)
    ensures var m' := Moved(m, e);
            && m.q.values <= m'.q.values && m.resumed <= m'.resumed
            && forall v <- m.taken :: v in m'.taken && m'.taken[v] == m.taken[v]
  {
    if e.RunPosted? {
      RunMakesNoCall(m.q, e.i);
    }
    if e.Resume? {
      UnresumedSeeks(m, e.k);
    }
  }

  lemma VisitorsKept(m: Match, f: Fwd, e: Move)
    requires MatchInv(m) && CanMove(m, e) && VisitorsInv(m, f)
    ensures VisitorsInv(Moved(m, e), f)
  {
    TakenStays(m, e);
    hide MatchInv, CanMove, Moved, FwdInv, HasUpstream;
  }

  lemma TunnelsKept(m: Match, f: Fwd, locals: nat, e: Move)
    requires MatchInv(m) && CanMove(m, e) && TunnelsInv(m, f, locals) && !e.Die?
    ensures TunnelsInv(Moved(m, e), f, locals)
  {
    TakenStays(m, e);
    assert Moved(m, e).gone == m.gone;
    hide MatchInv, CanMove, Moved, FwdInv, HasUpstream;
    forall w | w in f.jobs
      ensures exists k :: k in Moved(m, e).resumed && k < |Moved(m, e).q.values| && Moved(m, e).q.values[k] == w
    {
      var k :| k in m.resumed && k < |m.q.values| && m.q.values[k] == w;
      assert k in Moved(m, e).resumed && Moved(m, e).q.values[k] == w;
    }
  }

  /** The accept loop never sees the same tunnel twice. */
  lemma TunnelIsNew(m: Match, f: Fwd, locals: nat, k: nat)
    requires MatchInv(m) && TunnelsInv(m, f, locals) && CanMove(m, Resume(k))
    ensures m.q.values[k] !in f.jobs
  {
    HandedOverOnce(m.q);
    hide MatchInv, FwdInv, HasUpstream;
    assert forall k' <- m.resumed :: k' < |m.q.values| ==> m.q.values[k'] != m.q.values[k];
  }

  lemma VisitorStep(s: Share, a: Act)
    requires ShareInv(s) && CanAct(s, a)
    requires a.VisitorComes? || a.VisitReturns? || a.VisitFails? || a.PipeAtServer?
    ensures VisitorsInv(s.server, Acted(s, a).visitors)
  {
    hide MatchInv, TunnelsInv, CanMove, Moved, Matching.OfferOf;
    var m, f, f' := s.server, s.visitors, Acted(s, a).visitors;
    var u := if a.VisitReturns? then OfferOf(m, a.v) else 0;
    StepsKept(f, a.v, u);
    forall v': nat, u': nat | HasUpstream(f', v', u')
      ensures v' in m.taken && m.taken[v'] < |m.q.values| && OfferOf(m, v') == u'
    {
      UpstreamsKept(f, a.v, u, v', u');
      hide FwdInv, HasUpstream, Accepted, Upstream, UpstreamFailed, Registered, Waits, Paired;
    }
  }

  lemma TunnelStep(s: Share, a: Act)
    requires ShareInv(s) && CanAct(s, a)
    requires a.LocalConnects? || a.LocalFails? || a.PipeAtClient?
    ensures TunnelsInv(s.client, Acted(s, a).tunnels, Acted(s, a).locals)
  {
    hide MatchInv, VisitorsInv;
    var f, f' := s.tunnels, Acted(s, a).tunnels;
    StepsKept(f, a.w, s.locals);
    assert f'.jobs.Keys == f.jobs.Keys;
    forall w': nat, u': nat ensures HasUpstream(f', w', u') ==>
                            HasUpstream(f, w', u') || (a.LocalConnects? && (w', u') == (a.w, s.locals))
    {
      UpstreamsKept(f, a.w, s.locals, w', u');
    }
    hide FwdInv, HasUpstream;
  }

  lemma AcceptStep(s: Share, k: nat)
    requires ShareInv(s) && CanAct(s, TunnelAccepted(k))
    ensures var s' := Acted(s, TunnelAccepted(k)); TunnelsInv(s'.client, s'.tunnels, s'.locals)
  {
    TunnelIsNew(s.client, s.tunnels, s.locals, k);
    TunnelsKept(s.client, s.tunnels, s.locals, Resume(k));
    var m, f, w := Moved(s.client, Resume(k)), s.tunnels, s.client.q.values[k];
    TakenStays(s.client, Resume(k));
    assert k in m.resumed && m.q.values[k] == w;
    AcceptedKept(f, w);
    hide MatchInv, VisitorsInv, CanMove, Moved;
    var f' := Accepted(f, w);
    forall w': nat, u': nat ensures HasUpstream(f', w', u') ==> HasUpstream(f, w', u') {
      UpstreamsKept(f, w, 0, w', u');
    }
    assert f'.jobs.Keys == f.jobs.Keys + {w};
    hide FwdInv, HasUpstream;
  }

  lemma ActKept(s: Share, a: Act)
    requires ShareInv(s) && CanAct(s, a)
    ensures ShareInv(Acted(s, a))
  {
    hide MatchInv, VisitorsInv, TunnelsInv, CanMove, Moved;
    match a
    case VisitorComes(v) =>
      VisitorStep(s, a);
      MoveKept(s.server, Want(v));
      VisitorsKept(s.server, Acted(s, a).visitors, Want(v));
    case AtServer(e) =>
      MoveKept(s.server, e);
      VisitorsKept(s.server, s.visitors, e);
    case AtClient(e) =>
      MoveKept(s.client, e);
      TunnelsKept(s.client, s.tunnels, s.locals, e);
    case TunnelAccepted(k) =>
      MoveKept(s.client, Resume(k));
      AcceptStep(s, k);
    case LocalConnects(_) => TunnelStep(s, a);
    case LocalFails(_) => TunnelStep(s, a);
    case PipeAtClient(_) => TunnelStep(s, a);
    case _ => VisitorStep(s, a);
  }

  lemma {:induction false} ShareRunKept(s: Share, acts: seq<Act>)
    requires ShareInv(s) && IsShareRun(s, acts)
    ensures ShareInv(ShareAfter(s, acts))
    decreases |acts|
  {
    hide ShareInv, CanAct, Acted;
    if acts != [] {
      ActKept(s, acts[0]);
      ShareRunKept(Acted(s, acts[0]), acts[1..]);
    }
  }

  lemma QuietInv()
    ensures ShareInv(NOTHING_YET)
  {
    NoMatchInv();
    hide MatchInv;
  }

  // ---- What a share guarantees ----------------------------------------------------

  /** A pipe at the server and a pipe at the client join visitor v to local connection l. */
  ghost predicate Reaches(s: Share, v: nat, l: nat) {
    exists i, j :: i in s.visitors.pipes && j in s.tunnels.pipes && s.visitors.pipes[i].0 == v
                   && s.visitors.pipes[i].1 == s.tunnels.pipes[j].0 && s.tunnels.pipes[j].1 == l
  }

  lemma ServerPipes(s: Share, i: nat, j: nat)
    requires ShareInv(s) && i in s.visitors.pipes && j in s.visitors.pipes
    ensures s.visitors.pipes[i].0 == s.visitors.pipes[j].0 <==> i == j
    ensures s.visitors.pipes[i].1 == s.visitors.pipes[j].1 <==> i == j
  {
    TakenOnce(s.server);
    PipesJoin(s.visitors, i, j);
    PipesJoin(s.visitors, j, i);
    hide MatchInv, TunnelsInv, HasUpstream, FwdInv, Matching.OfferOf;
  }

  lemma ClientPipes(s: Share, i: nat, j: nat)
    requires ShareInv(s) && i in s.tunnels.pipes && j in s.tunnels.pipes
    ensures s.tunnels.pipes[i].0 == s.tunnels.pipes[j].0 <==> i == j
    ensures s.tunnels.pipes[i].1 == s.tunnels.pipes[j].1 <==> i == j
  {
    PipesJoin(s.tunnels, i, j);
    PipesJoin(s.tunnels, j, i);
    hide MatchInv, VisitorsInv, HasUpstream, FwdInv;
  }

  /**
   In every run: no two pipes at the server share a visitor or a worker, no two pipes
   at the client share a tunnel or a local connection, and so a visitor reaches at most
   one local connection, and no two visitors reach the same.
   */
  lemma NothingShared(acts: seq<Act>)
    requires IsShareRun(NOTHING_YET, acts)
    ensures var s := ShareAfter(NOTHING_YET, acts);
            && (forall i, j :: i in s.visitors.pipes && j in s.visitors.pipes && i != j ==>
                  s.visitors.pipes[i].0 != s.visitors.pipes[j].0 && s.visitors.pipes[i].1 != s.visitors.pipes[j].1)
            && (forall i, j :: i in s.tunnels.pipes && j in s.tunnels.pipes && i != j ==>
                  s.tunnels.pipes[i].0 != s.tunnels.pipes[j].0 && s.tunnels.pipes[i].1 != s.tunnels.pipes[j].1)
            && (forall v, l, v', l' :: Reaches(s, v, l) && Reaches(s, v', l') ==> (v == v' <==> l == l'))
  {
    QuietInv();
    hide ShareInv;
    ShareRunKept(NOTHING_YET, acts);
    OneToOnePipes(ShareAfter(NOTHING_YET, acts));
    ReachesOneToOne(ShareAfter(NOTHING_YET, acts));
  }

  lemma OneToOnePipes(s: Share)
    requires ShareInv(s)
    ensures forall i, j :: i in s.visitors.pipes && j in s.visitors.pipes ==>
              (s.visitors.pipes[i].0 == s.visitors.pipes[j].0 <==> i == j)
              && (s.visitors.pipes[i].1 == s.visitors.pipes[j].1 <==> i == j)
    ensures forall i, j :: i in s.tunnels.pipes && j in s.tunnels.pipes ==>
              (s.tunnels.pipes[i].0 == s.tunnels.pipes[j].0 <==> i == j)
              && (s.tunnels.pipes[i].1 == s.tunnels.pipes[j].1 <==> i == j)
  {
    hide ShareInv;
    forall i, j | i in s.visitors.pipes && j in s.visitors.pipes
      ensures s.visitors.pipes[i].0 == s.visitors.pipes[j].0 <==> i == j
      ensures s.visitors.pipes[i].1 == s.visitors.pipes[j].1 <==> i == j
    {
      ServerPipes(s, i, j);
    }
    forall i, j | i in s.tunnels.pipes && j in s.tunnels.pipes
      ensures s.tunnels.pipes[i].0 == s.tunnels.pipes[j].0 <==> i == j
      ensures s.tunnels.pipes[i].1 == s.tunnels.pipes[j].1 <==> i == j
    {
      ClientPipes(s, i, j);
    }
  }

  lemma ReachesOneToOne(s: Share)
    requires ShareInv(s)
    ensures forall v, l, v', l' :: Reaches(s, v, l) && Reaches(s, v', l') ==> (v == v' <==> l == l')
  {
    OneToOnePipes(s);
    hide ShareInv;
    Injective(s);
  }

  lemma Injective(s: Share)
    requires forall i, j :: i in s.visitors.pipes && j in s.visitors.pipes ==>
               (s.visitors.pipes[i].0 == s.visitors.pipes[j].0 <==> i == j)
               && (s.visitors.pipes[i].1 == s.visitors.pipes[j].1 <==> i == j)
    requires forall i, j :: i in s.tunnels.pipes && j in s.tunnels.pipes ==>
               (s.tunnels.pipes[i].0 == s.tunnels.pipes[j].0 <==> i == j)
               && (s.tunnels.pipes[i].1 == s.tunnels.pipes[j].1 <==> i == j)
    ensures forall v, l, v', l' :: Reaches(s, v, l) && Reaches(s, v', l') ==> (v == v' <==> l == l')
  {
    forall v, l, v', l' | Reaches(s, v, l) && Reaches(s, v', l') ensures v == v' <==> l == l' {
      var i, j :| i in s.visitors.pipes && j in s.tunnels.pipes && s.visitors.pipes[i].0 == v
                  && s.visitors.pipes[i].1 == s.tunnels.pipes[j].0 && s.tunnels.pipes[j].1 == l;
      var i', j' :| i' in s.visitors.pipes && j' in s.tunnels.pipes && s.visitors.pipes[i'].0 == v'
                    && s.visitors.pipes[i'].1 == s.tunnels.pipes[j'].0 && s.tunnels.pipes[j'].1 == l';
    }
  }

  // ---- A socket whose other side failed ---------------------------------------------

  predicate Closed(f: Fwd, d: nat) { d in f.jobs && f.jobs[d].Dropped? }

  lemma ClosedInNoPipe(f: Fwd, d: nat)
    requires FwdInv(f) && Closed(f, d)
    ensures forall id <- f.pipes :: f.pipes[id].0 != d
  {
  }

  lemma ClosedStays(s: Share, a: Act, d: nat)
    requires ShareInv(s) && CanAct(s, a)
    ensures Closed(s.visitors, d) ==> Closed(Acted(s, a).visitors, d)
    ensures Closed(s.tunnels, d) ==> Closed(Acted(s, a).tunnels, d)
  {
    if a.TunnelAccepted? {
      TunnelIsNew(s.client, s.tunnels, s.locals, a.k);
    }
    hide MatchInv, VisitorsInv, TunnelsInv, CanMove, Moved;
  }

  lemma {:induction false} ClosedForGood(s: Share, acts: seq<Act>, d: nat)
    requires ShareInv(s) && IsShareRun(s, acts)
    ensures Closed(s.visitors, d) ==> Closed(ShareAfter(s, acts).visitors, d)
    ensures Closed(s.tunnels, d) ==> Closed(ShareAfter(s, acts).tunnels, d)
    decreases |acts|
  {
    hide ShareInv, CanAct, Acted, Closed;
    if acts != [] {
      ClosedStays(s, acts[0], d);
      ActKept(s, acts[0]);
      ClosedForGood(Acted(s, acts[0]), acts[1..], d);
    }
  }

  lemma ShareFwds(s: Share)
    requires ShareInv(s)
    ensures FwdInv(s.visitors) && FwdInv(s.tunnels)
  {
    hide MatchInv, FwdInv;
  }

  /**
   In every run: a visitor whose visit failed, and a tunnel whose connection to the local
   service failed, are closed for good: neither is in a pipe then, or ever after.
   */
  lemma FailedIsNeverPiped(acts: seq<Act>, a: Act, more: seq<Act>)
    requires IsShareRun(NOTHING_YET, acts) && (a.VisitFails? || a.LocalFails?)
    requires CanAct(ShareAfter(NOTHING_YET, acts), a)
    requires IsShareRun(Acted(ShareAfter(NOTHING_YET, acts), a), more)
    ensures var s := ShareAfter(Acted(ShareAfter(NOTHING_YET, acts), a), more);
            && (a.VisitFails? ==>
                  (forall i <- s.visitors.pipes :: s.visitors.pipes[i].0 != a.v) && forall l :: !Reaches(s, a.v, l))
            && (a.LocalFails? ==> forall j <- s.tunnels.pipes :: s.tunnels.pipes[j].0 != a.w)
  {
    QuietInv();
    ShareRunKept(NOTHING_YET, acts);
    var s0 := ShareAfter(NOTHING_YET, acts);
    var s1 := Acted(s0, a);
    ActKept(s0, a);
    var d := if a.VisitFails? then a.v else a.w;
    assert if a.VisitFails? then Closed(s1.visitors, d) else Closed(s1.tunnels, d);
    hide ShareInv, Acted, CanAct, Closed, FwdInv;
    ClosedForGood(s1, more, d);
    ShareRunKept(s1, more);
    var s := ShareAfter(s1, more);
    ShareFwds(s);
    if a.VisitFails? {
      ClosedInNoPipe(s.visitors, d);
    } else {
      ClosedInNoPipe(s.tunnels, d);
    }
  }
}

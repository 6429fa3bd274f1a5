/**
 What the client's pool does for a share that is low: one look at it brings the
 configured number of workers, and nothing brings more once the share is closing.
 */
module Refilling {
  import opened Pool

  predicate Low(c: Config, p: State) { p.count < c.low }

  lemma LookPromises(c: Config, p: State)
    requires Inv(c, p) && Enabled(p, Begin)
    ensures var p' := Apply(c, p, Begin);
            && Promised(p') == Promised(p) + (if !p.closing && Low(c, p) then c.more else 0)
            && p'.spawned == p.spawned - 1
            && p'.registered == (if !p.closing && Low(c, p) then p.live else p.registered)
  {
    assert p.registered * p.live == p.live;
    SumConcat(p.refills, [c.more]);
    SumOne(c.more);
    hide Sum, AllWithin;
  }

  /**
   What each step does to the promises and to the spawned looks, in numbers.  A look
   promises a refill exactly if the share is open and low, and leaves the map with the live
   workers only; every connection keeps one promise.
   */
  lemma StepPromises(c: Config, p: State, e: Event)
    requires Inv(c, p) && Enabled(p, e)
    ensures var p' := Apply(c, p, e);
            && (e.Begin? ==>
                  && Promised(p') == Promised(p) + (if !p.closing && Low(c, p) then c.more else 0)
                  && p'.spawned == p.spawned - 1
                  && p'.registered == (if !p.closing && Low(c, p) then p.live else p.registered))
            && (e.Check? ==> Promised(p') == Promised(p) && p'.spawned == p.spawned + if Low(c, p) then 1 else 0)
            && (e.AddRefill? || e.AddInitial? ==> Promised(p') == Promised(p) - 1 && p'.count == p.count + 1)
            && (e.StartInitial? ==> p'.first == c.initial && p'.registered == p.live)
            && (e.Fails? ==> Promised(p') == Promised(p) - p.refills[e.i] && p'.live == p.live)
            && (e.InitialFails? ==> Promised(p') == Promised(p) - p.first && p'.live == p.live)
            && (e.Visit? || e.Take? || e.Dies? || e.Close? ==> Promised(p') == Promised(p) && p'.spawned == p.spawned)
  {
    match e
    case Begin =>
      hide *;
      LookPromises(c, p);
    case AddRefill(i) =>
      SumAt(p.refills, i, p.refills[i] - 1);
      hide Inv, Sum, Without;
    case Fails(i) =>
      SumAt(p.refills, i, 0);
      hide Inv, Sum, Without;
    case StartInitial =>
      assert p.registered * p.live == p.live;
      hide Sum, AllWithin;
    case _ => hide Inv, Sum;
  }

  // ---- A low pool is refilled ----------------------------------------------------------

  /** n workers more, with the next ids. */
  ghost predicate Grown(p: State, p': State, n: nat) {
    && (forall w: nat :: w in p'.live <==> w in p.live || p.nextId <= w < p.nextId + n)
    && p'.count == p.count + n && p'.nextId == p.nextId + n
  }

  /** The last refill connects once. */
  lemma LastConnects(c: Config, p: State)
    requires Inv(c, p) && p.refills != [] && p.refills[|p.refills| - 1] > 0
    ensures var i := |p.refills| - 1;
            && Enabled(p, AddRefill(i))
            && var p' := Apply(c, p, AddRefill(i));
               && Inv(c, p') && Grown(p, p', 1) && p'.first == p.first && p'.taken == p.taken
               && p'.refills == p.refills[..i] + if p.refills[i] == 1 then [] else [p.refills[i] - 1]
  {
    var i := |p.refills| - 1;
    StepKept(c, p, AddRefill(i));
    hide Inv;
  }

  lemma GrownTwice(p: State, p1: State, p2: State, n: nat)
    requires Grown(p, p1, 1) && Grown(p1, p2, n)
    ensures Grown(p, p2, n + 1)
  {
  }

  /** The last refill keeps its promises. */
  lemma {:induction false} RefillConnects(c: Config, p: State, n: nat) returns (es: seq<Event>)
    requires Inv(c, p) && p.refills != [] && p.refills[|p.refills| - 1] == n > 0
    ensures IsRun(c, p, es) && (forall e <- es :: e.AddRefill?) && |es| == n
    ensures var p' := After(c, p, es);
            && Grown(p, p', n) && p'.refills == p.refills[..|p.refills| - 1]
            && p'.first == p.first && p'.taken == p.taken
    decreases n
  {
    var i := |p.refills| - 1;
    LastConnects(c, p);
    var p1 := Apply(c, p, AddRefill(i));
    hide Inv, Enabled, Apply, Grown;
    if n == 1 {
      es := OneMore(c, p1, AddRefill(i), [], p);
    } else {
      assert |p1.refills| == |p.refills| && p1.refills[..i] == p.refills[..i] && p1.refills[i] == n - 1;
      var more := RefillConnects(c, p1, n - 1);
      GrownTwice(p, p1, After(c, p1, more), n - 1);
      es := OneMore(c, p1, AddRefill(i), more, p);
    }
  }

  /** A look at a low pool, and the refill it spawns. */
  lemma LooksTwice(c: Config, p: State) returns (p1: State, p2: State)
    requires Inv(c, p) && p.taken && Low(c, p) && !p.closing
    ensures Enabled(p, Check) && p1 == Apply(c, p, Check) && Enabled(p1, Begin) && p2 == Apply(c, p1, Begin)
    ensures Inv(c, p2) && p2.live == p.live && p2.count == p.count && p2.nextId == p.nextId && !p2.taken
    ensures p2.first == p.first && p2.refills == p.refills + if c.more > 0 then [c.more] else []
  {
    p1 := Apply(c, p, Check);
    StepKept(c, p, Check);
    p2 := Apply(c, p1, Begin);
    StepKept(c, p1, Begin);
    hide Inv;
  }

  /** As many connections as a refill at the end has promised. */
  lemma AllConnect(c: Config, p: State, refills: seq<nat>) returns (es: seq<Event>)
    requires Inv(c, p) && p.refills == refills + if c.more > 0 then [c.more] else []
    ensures IsRun(c, p, es) && forall e <- es :: e.AddRefill?
    ensures var p' := After(c, p, es);
            Grown(p, p', c.more) && p'.refills == refills && p'.first == p.first && p'.taken == p.taken
  {
    if c.more > 0 {
      es := RefillConnects(c, p, c.more);
      assert p.refills[..|refills|] == refills;
    } else {
      es := [];
    }
  }

  /**
   In every run: when the accept loop has taken a tunnel of an open share that is low, the
   look at the pool, the refill it spawns, and as many connections as are configured bring
   exactly that many new workers, with ids not given before, and keep all others.
   */
  lemma LowPoolIsRefilled(c: Config, es: seq<Event>) returns (fs: seq<Event>)
    requires IsRun(c, NO_WORKERS, es)
    requires var p := After(c, NO_WORKERS, es); p.taken && Low(c, p) && !p.closing
    ensures var p := After(c, NO_WORKERS, es);
            && IsRun(c, p, fs) && (forall e <- fs :: e.Check? || e.Begin? || e.AddRefill?)
            && var p' := After(c, p, fs);
               Grown(p, p', c.more) && Promised(p') == Promised(p) && !p'.taken
  {
    StartsCounted(c);
    RunKept(c, NO_WORKERS, es);
    var p := After(c, NO_WORKERS, es);
    hide IsRun, After, Inv, Enabled, Apply;
    var p1, p2 := LooksTwice(c, p);
    fs := AllConnect(c, p2, p.refills);
    fs := OneMore(c, p2, Begin, fs, p1);
    fs := OneMore(c, p1, Check, fs, p);
  }

  // ---- A closing share ---------------------------------------------------------------------

  ghost predicate Winding(p: State, bound: nat) { p.closing && p.started && p.offered == [] && Promised(p) <= bound }

  lemma {:induction false} RunWinds(c: Config, p: State, es: seq<Event>, bound: nat)
    requires Inv(c, p) && Winding(p, bound) && IsRun(c, p, es)
    ensures Winding(After(c, p, es), bound)
    decreases |es|
  {
    if es != [] {
      StepKept(c, p, es[0]);
      StepPromises(c, p, es[0]);
      var p' := Apply(c, p, es[0]);
      assert p'.closing && p'.started && p'.offered == [] by { hide Inv, Promised, IsRun; }
      hide Inv, Enabled, Apply, Promised;
      RunWinds(c, p', es[1..], bound);
    }
  }

  /**
   In every run, once a share that was started is closing, no tunnel waits to be taken, and
   no step promises another worker: there are never more promises than when it was closed.
   */
  lemma ClosingPromisesNothing(c: Config, es: seq<Event>, fs: seq<Event>)
    requires IsRun(c, NO_WORKERS, es) && After(c, NO_WORKERS, es).started
    requires IsRun(c, Apply(c, After(c, NO_WORKERS, es), Close), fs)
    ensures var p := After(c, NO_WORKERS, es);
            var p' := After(c, Apply(c, p, Close), fs);
            p'.closing && p'.offered == [] && Promised(p') <= Promised(p)
  {
    StartsCounted(c);
    RunKept(c, NO_WORKERS, es);
    var p := After(c, NO_WORKERS, es);
    StepKept(c, p, Close);
    StepPromises(c, p, Close);
    hide Inv, IsRun, After, Promised;
    RunWinds(c, Apply(c, p, Close), fs, Promised(p));
  }

  // ---- Tunnels in order -----------------------------------------------------------------------

  /** The tunnels that visits put into the queue in a run, in order. */
  ghost function Offers(c: Config, p: State, es: seq<Event>): seq<nat>
    requires IsRun(c, p, es)
    decreases |es|
  {
    if es == [] then []
    else (if es[0].Visit? && !p.closing then [es[0].w] else []) + Offers(c, Apply(c, p, es[0]), es[1..])
  }

  /** The tunnels that the accept loop takes in a run, in order. */
  ghost function Takes(c: Config, p: State, es: seq<Event>): seq<nat>
    requires IsRun(c, p, es)
    decreases |es|
  {
    if es == [] then []
    else (if es[0].Take? then [p.offered[0]] else []) + Takes(c, Apply(c, p, es[0]), es[1..])
  }

  /** One step: what was waiting and is offered now is what is taken now and is waiting then. */
  lemma StepOffers(c: Config, p: State, e: Event)
    requires Enabled(p, e) && (p.closing ==> p.offered == [])
    ensures var p' := Apply(c, p, e);
            && (p'.closing ==> p'.offered == []) && (p.closing ==> p'.closing)
            && (if e.Close? then p'.offered == []
                else p.offered + (if e.Visit? && !p.closing then [e.w] else []) ==
                     (if e.Take? then [p.offered[0]] else []) + p'.offered)
  {
  }

  lemma Regrouped(o: seq<nat>, a: seq<nat>, more: seq<nat>, b: seq<nat>, o': seq<nat>, taken: seq<nat>, last: seq<nat>)
    requires o + a == b + o' && o' + more == taken + last
    ensures o + (a + more) == (b + taken) + last
  {
    assert o + (a + more) == (o + a) + more;
    assert (b + o') + more == b + (o' + more);
    assert b + (taken + last) == (b + taken) + last;
  }

  lemma {:induction false} OffersFrom(c: Config, p: State, es: seq<Event>)
    requires IsRun(c, p, es) && (p.closing ==> p.offered == [])
    ensures Takes(c, p, es) <= p.offered + Offers(c, p, es)
    ensures Close !in es ==> p.offered + Offers(c, p, es) == Takes(c, p, es) + After(c, p, es).offered
    ensures p.closing ==> Takes(c, p, es) == []
    decreases |es|
  {
    if es != [] {
      var e, p' := es[0], Apply(c, p, es[0]);
      StepOffers(c, p, e);
      OffersFrom(c, p', es[1..]);
      var a := if e.Visit? && !p.closing then [e.w] else [];
      var b := if e.Take? then [p.offered[0]] else [];
      assert e == Close <==> e.Close?;
      assert p.closing ==> !e.Take?;
      hide Enabled, Apply, IsRun, After;
      if !e.Close? {
        assert p'.offered + Offers(c, p', es[1..]) ==
               Takes(c, p', es[1..]) + (p'.offered + Offers(c, p', es[1..]))[|Takes(c, p', es[1..])|..];
        Regrouped(p.offered, a, Offers(c, p', es[1..]), b, p'.offered, Takes(c, p', es[1..]),
                  (p'.offered + Offers(c, p', es[1..]))[|Takes(c, p', es[1..])|..]);
        if Close !in es {
          assert forall f <- es[1..] :: f in es;
        }
      }
    }
  }

  /**
   In every run the accept loop takes tunnels in the order of the visits; and as long as the
   share was not closed, every tunnel was taken or waits, in that order.
   */
  lemma FirstVisitedFirstTaken(c: Config, es: seq<Event>)
    requires IsRun(c, NO_WORKERS, es)
    ensures Takes(c, NO_WORKERS, es) <= Offers(c, NO_WORKERS, es)
    ensures Close !in es ==> Offers(c, NO_WORKERS, es) == Takes(c, NO_WORKERS, es) + After(c, NO_WORKERS, es).offered
  {
    OffersFrom(c, NO_WORKERS, es);
    assert [] + Offers(c, NO_WORKERS, es) == Offers(c, NO_WORKERS, es);
  }
}

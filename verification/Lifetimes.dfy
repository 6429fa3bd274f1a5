/**
 How long the outcome of a greeting lasts: a share stands for the client that
 registered it for as long as it lives, in every run of greetings and deaths, and not
 a moment longer.
 */
module Lifetimes {
  import opened Messages
  import opened Registry

  /** No number below `next` is given again, and an object below it is dead or as it was. */
  ghost predicate Stands(r: State, r': State) {
    && r.next <= r'.next
    && (forall sh <- r'.shares ::
          if sh < r.next then sh in r.shares && r'.shares[sh] == r.shares[sh] else r.next <= r'.shares[sh].ctrl)
    && (forall c <- r'.controllers ::
          c < r.next ==> c in r.controllers && r'.controllers[c].uuid == r.controllers[c].uuid)
  }

  lemma {:induction false} AddSharesStands(r: State, c: nat, specs: seq<ShareSpec>, from: State)
    requires c in r.controllers && from.next <= c && Stands(from, r)
    ensures Stands(from, AddShares(r, c, specs).0)
    decreases |specs|
  {
    if specs != [] && !Held(r, specs[0].id) {
      var m := AddShare(r, c, specs[0].id);
      AddShareStands(r, c, specs[0].id, from);
      AddSharesOnce(r, c, specs);
      hide AddShare, AddShares, Stands;
      AddSharesStands(m, c, specs[1..], from);
    } else {
      NoneMore(r, c, specs);
    }
  }

  lemma AddShareStands(r: State, c: nat, id: string, from: State)
    requires c in r.controllers && from.next <= c && Stands(from, r)
    ensures c in AddShare(r, c, id).controllers && Stands(from, AddShare(r, c, id))
  {
  }

  lemma GreetStands(r: State, uuid: string, specs: seq<ShareSpec>)
    requires Inv(r)
    ensures Stands(r, GreetClient(r, uuid, specs).0)
  {
    if !Known(r, uuid) {
      BelowNext(r);
      assert Stands(r, Greeted(r, uuid)) && r.next in Greeted(r, uuid).controllers;
      AddSharesStands(Greeted(r, uuid), r.next, specs, r);
      hide AddShares, Greeted, Inv;
    } else {
      BelowNext(r);
      hide Inv;
    }
  }

  lemma StepStands(r: State, e: Event)
    requires Inv(r) && Enabled(r, e)
    ensures Stands(r, Apply(r, e))
  {
    BelowNext(r);
    hide Inv, GreetClient;
    match e
    case ClientGreets(uuid, specs) => GreetStands(r, uuid, specs);
    case WorkerGreets(id) =>
    case Dies(x) =>
  }

  lemma StandsThen(r: State, m: State, r': State)
    requires Stands(r, m) && Stands(m, r')
    ensures Stands(r, r')
  {
  }

  lemma {:induction false} RunStands(r: State, es: seq<Event>)
    requires Inv(r) && IsRun(r, es)
    ensures Stands(r, After(r, es)) && Inv(After(r, es))
    decreases |es|
  {
    BelowNext(r);
    if es != [] {
      hide Inv, Apply, Enabled, Stands;
      ApplyKept(r, es[0]);
      StepStands(r, es[0]);
      RunStands(Apply(r, es[0]), es[1..]);
      StandsThen(r, Apply(r, es[0]), After(r, es));
    } else {
      hide Inv;
    }
  }

  // ---- A rejected client -----------------------------------------------------------

  /** Some share of the n registered first under controller c still lives. */
  ghost predicate SomeLives(r: State, c: nat, n: nat) { exists sh <- r.shares :: c < sh <= c + n }

  predicate IsGreetingOf(e: Event, uuid: string) { e.ClientGreets? && e.uuid == uuid }

  ghost predicate NobodyElse(es: seq<Event>, uuid: string) { forall e <- es :: !IsGreetingOf(e, uuid) }

  lemma ShareHoldsUuid(r: State, sh: nat)
    requires Inv(r) && sh in r.shares
    ensures var c := r.shares[sh].ctrl;
            c in r.controllers && Known(r, r.controllers[c].uuid) && r.ctrls[r.controllers[c].uuid] == c
  {
    assert ShareInPlace(r, sh) && CtrlInPlace(r, r.shares[sh].ctrl);
  }

  lemma {:induction false} EntryStays(r: State, es: seq<Event>, uuid: string)
    requires IsRun(r, es) && uuid in r.ctrls && NobodyElse(es, uuid) && Inv(r)
    ensures uuid in After(r, es).ctrls && After(r, es).ctrls[uuid] == r.ctrls[uuid]
    decreases |es|
  {
    if es != [] {
      assert !IsGreetingOf(es[0], uuid);
      assert forall e <- es[1..] :: e in es;
      StepEntry(r, es[0], uuid);
      ApplyKept(r, es[0]);
      hide Apply, Enabled, Inv, IsGreetingOf;
      EntryStays(Apply(r, es[0]), es[1..], uuid);
    }
  }

  lemma StepEntry(r: State, e: Event, uuid: string)
    requires Inv(r) && uuid in r.ctrls && !IsGreetingOf(e, uuid)
    ensures uuid in Apply(r, e).ctrls && Apply(r, e).ctrls[uuid] == r.ctrls[uuid]
  {
    hide Inv;
    if e.ClientGreets? && !Known(r, e.uuid) {
      hide AddShares, LongestPrefix, NewShares, OtherIds, Extends, GreetClient;
      var n := HelloRegistersPrefix(r, e.uuid, e.specs);
    }
  }

  /** A share below a live number is one of the n, and belongs to controller c. */
  lemma OfTheController(r: State, r': State, c: nat, specs: seq<ShareSpec>, n: nat, sh: nat)
    requires NewShares(c + 1, r, c, specs, n) && r.next > c + n && Stands(r, r')
    requires c < sh <= c + n && sh in r'.shares
    ensures r'.shares[sh].ctrl == c
  {
    var i := sh - c - 1;
    assert specs[i].id in r.tcpShares && c + 1 + i in r.shares;
  }

  lemma NumbersUsed(r: State, c: nat, specs: seq<ShareSpec>, n: nat)
    requires Inv(r) && NewShares(c + 1, r, c, specs, n) && (c in r.controllers || n > 0)
    ensures r.next > c + n
  {
    BelowNext(r);
    if n > 0 {
      assert specs[n - 1].id in r.tcpShares && c + 1 + (n - 1) in r.shares;
    }
  }

  lemma CtrlHoldsUuid(r: State, c: nat)
    requires Inv(r) && c in r.controllers
    ensures Known(r, r.controllers[c].uuid) && r.ctrls[r.controllers[c].uuid] == c
  {
    assert CtrlInPlace(r, c);
  }

  /** The entry of the uuid is that of the new controller, which carries it if it lives. */
  lemma NewUuid(r: State, r': State, c: nat, uuid: string)
    requires Inv(r) && Inv(r') && r.next == c && r'.ctrls == r.ctrls[uuid := c]
    ensures c < r'.next && (c in r'.controllers ==> r'.controllers[c].uuid == uuid)
  {
    assert uuid in r'.ctrls && r'.ctrls[uuid] == c;
    if c in r'.controllers {
      CtrlHoldsUuid(r', c);
    }
  }

  /**
   A greeting rejected for a share, and any run of greetings and deaths after it.  The
   uuid is turned away as long as one of the n shares lives that were registered on the
   way, whoever else greets; while nobody else greets with it, it is turned away exactly
   as long as the controller of the rejected greeting lives.
   */
  lemma RejectionLasts(
      r: State, uuid: string, specs: seq<ShareSpec>, es: seq<Event>, again: seq<ShareSpec>) returns (n: nat)
    requires Inv(r) && GreetClient(r, uuid, specs).1.DuplicateShare?
    requires IsRun(GreetClient(r, uuid, specs).0, es)
    ensures LongestPrefix(r, specs, n) && n < |specs|
    ensures var r' := After(GreetClient(r, uuid, specs).0, es);
            var turnedAway := GreetClient(r', uuid, again).1 == DuplicateClient;
            && (SomeLives(r', r.next, n) ==> r.next in r'.controllers)
            && (r.next in r'.controllers ==> turnedAway)
            && (NobodyElse(es, uuid) && turnedAway ==> r.next in r'.controllers)
  {
    hide *;
    n := Rejected(r, uuid, specs);
    var r1 := GreetClient(r, uuid, specs).0;
    NewUuid(r, r1, r.next, uuid);
    AsLongAs(r1, r.next, uuid, specs, n, es);
    TurnedAway(After(r1, es), uuid, again);
  }

  lemma Rejected(r: State, uuid: string, specs: seq<ShareSpec>) returns (n: nat)
    requires Inv(r) && GreetClient(r, uuid, specs).1.DuplicateShare?
    ensures LongestPrefix(r, specs, n) && n < |specs|
    ensures var r1 := GreetClient(r, uuid, specs).0;
            && Inv(r1) && NewShares(r.next + 1, r1, r.next, specs, n)
            && (n > 0 ==> r.next in r1.controllers) && r1.ctrls == r.ctrls[uuid := r.next]
  {
    hide Inv, AddShares, NewShares, OtherIds, Held, LongestPrefix, Extends;
    n := HelloRegistersPrefix(r, uuid, specs);
  }

  lemma AsLongAs(r: State, c: nat, uuid: string, specs: seq<ShareSpec>, n: nat, es: seq<Event>)
    requires Inv(r) && NewShares(c + 1, r, c, specs, n) && (n > 0 ==> c in r.controllers) && c < r.next
    requires c in r.controllers ==> r.controllers[c].uuid == uuid
    requires uuid in r.ctrls && r.ctrls[uuid] == c && IsRun(r, es)
    ensures var r' := After(r, es);
            && (SomeLives(r', c, n) ==> c in r'.controllers) && (c in r'.controllers ==> Known(r', uuid))
            && (NobodyElse(es, uuid) && Known(r', uuid) ==> c in r'.controllers)
  {
    hide *;
    RunStands(r, es);
    var r' := After(r, es);
    if SomeLives(r', c, n) {
      CtrlLives(r, r', c, specs, n);
    }
    if c in r'.controllers {
      CtrlHoldsUuid(r', c);
      SameUuid(r, r', c);
    }
    if NobodyElse(es, uuid) && Known(r', uuid) {
      EntryStays(r, es, uuid);
      KnownMeans(r', uuid);
    }
  }

  lemma CtrlLives(r: State, r': State, c: nat, specs: seq<ShareSpec>, n: nat)
    requires Inv(r) && Inv(r') && Stands(r, r') && NewShares(c + 1, r, c, specs, n) && SomeLives(r', c, n)
    ensures c in r'.controllers
  {
    var sh :| sh in r'.shares && c < sh <= c + n;
    hide *;
    NumbersUsed(r, c, specs, n);
    OfTheController(r, r', c, specs, n, sh);
    ShareHoldsUuid(r', sh);
  }

  lemma KnownMeans(r: State, uuid: string)
    requires Known(r, uuid)
    ensures uuid in r.ctrls && r.ctrls[uuid] in r.controllers
  {
  }

  lemma SameUuid(r: State, r': State, c: nat)
    requires Stands(r, r') && c < r.next && c in r'.controllers
    ensures c in r.controllers && r'.controllers[c].uuid == r.controllers[c].uuid
  {
  }

  lemma TurnedAway(r: State, uuid: string, again: seq<ShareSpec>)
    ensures GreetClient(r, uuid, again).1 == DuplicateClient <==> Known(r, uuid)
  {
  }

  // ---- A late worker ---------------------------------------------------------------

  /** What is alive under an id was registered with that id. */
  ghost predicate Named(r: State) {
    forall id <- r.tcpShares ::
      r.tcpShares[id] < r.next && (r.tcpShares[id] in r.shares ==> r.shares[r.tcpShares[id]].id == id)
  }

  lemma AddShareNamed(r: State, c: nat, id: string)
    requires c in r.controllers && Named(r)
    ensures c in AddShare(r, c, id).controllers && Named(AddShare(r, c, id))
  {
  }

  lemma {:induction false} AddSharesNamed(r: State, c: nat, specs: seq<ShareSpec>)
    requires c in r.controllers && Named(r)
    ensures Named(AddShares(r, c, specs).0)
    decreases |specs|
  {
    if specs != [] && !Held(r, specs[0].id) {
      AddShareNamed(r, c, specs[0].id);
      AddSharesOnce(r, c, specs);
      hide AddShare, AddShares, Named;
      AddSharesNamed(AddShare(r, c, specs[0].id), c, specs[1..]);
    } else {
      NoneMore(r, c, specs);
    }
  }

  lemma StepNamed(r: State, e: Event)
    requires Named(r)
    ensures Named(Apply(r, e))
  {
    match e
    case ClientGreets(uuid, specs) =>
      if !Known(r, uuid) {
        assert Named(Greeted(r, uuid));
        AddSharesNamed(Greeted(r, uuid), r.next, specs);
        hide AddShares, Greeted;
      }
    case WorkerGreets(id) =>
    case Dies(x) =>
  }

  lemma {:induction false} RunNamed(r: State, es: seq<Event>)
    requires Inv(r) && Named(r) && IsRun(r, es)
    ensures Inv(After(r, es)) && Named(After(r, es))
    decreases |es|
  {
    hide Inv, Named, Apply, Enabled;
    if es != [] {
      ApplyKept(r, es[0]);
      StepNamed(r, es[0]);
      RunNamed(Apply(r, es[0]), es[1..]);
    }
  }

  /** The controller a worker that names `id` would serve. */
  ghost predicate ServedBy(r: State, id: string, c: nat) {
    var (r', o) := GreetWorker(r, id);
    o.WorkerAdded? && o.w in r'.workers && r'.workers[o.w] in r'.shares && r'.shares[r'.workers[o.w]].ctrl == c
  }

  lemma ServedWhenHeld(r: State, id: string, c: nat)
    ensures ServedBy(r, id, c) <==> Held(r, id) && r.shares[r.tcpShares[id]].ctrl == c
  {
  }

  lemma InPlace(r: State, sh: nat)
    requires Inv(r) && sh in r.shares
    ensures Held(r, r.shares[sh].id) && r.tcpShares[r.shares[sh].id] == sh
  {
    assert ShareInPlace(r, sh);
  }

  lemma SameShare(r: State, r': State, sh: nat)
    requires Stands(r, r') && sh in r'.shares
    ensures sh < r.next ==> sh in r.shares && r'.shares[sh] == r.shares[sh]
    ensures sh >= r.next ==> r.next <= r'.shares[sh].ctrl
  {
  }

  /** Whoever holds the id of a dead share came after it. */
  lemma LaterShare(r: State, r': State, sh: nat)
    requires Inv(r) && Named(r') && Stands(r, r') && sh in r.shares && sh !in r'.shares && Held(r', r.shares[sh].id)
    ensures r.next <= r'.shares[r'.tcpShares[r.shares[sh].id]].ctrl
  {
    var t := r'.tcpShares[r.shares[sh].id];
    assert r'.shares[t].id == r.shares[sh].id;
    SameShare(r, r', t);
    hide Stands, Named, Inv;
    if t in r.shares {
      InPlace(r, t);
      InPlace(r, sh);
    }
  }

  /**
   A client's share in a reachable state, and any run after it: a worker that then names
   the id of the share serves that client exactly if the share still lives.  Otherwise it
   is turned away, or serves a client that came later.
   */
  lemma WorkerServesItsClient(past: seq<Event>, sh: nat, es: seq<Event>)
    requires IsRun(NO_CLIENTS, past) && sh in After(NO_CLIENTS, past).shares
    requires IsRun(After(NO_CLIENTS, past), es)
    ensures var r := After(NO_CLIENTS, past);
            var s, r' := r.shares[sh], After(r, es);
            && (ServedBy(r', s.id, s.ctrl) <==> sh in r'.shares)
            && forall c: nat :: ServedBy(r', s.id, c) && c != s.ctrl ==> r.next <= c
  {
    var none := NO_CLIENTS;
    assert Inv(none) && Named(none);
    RunNamed(none, past);
    var r := After(none, past);
    hide Inv, Named, After, IsRun, Stands, Held, ServedBy;
    RunNamed(r, es);
    RunStands(r, es);
    ServesItsClient(r, sh, After(r, es));
  }

  lemma ServesItsClient(r: State, sh: nat, r': State)
    requires Inv(r) && sh in r.shares && Inv(r') && Named(r') && Stands(r, r')
    ensures var s := r.shares[sh];
            && (ServedBy(r', s.id, s.ctrl) <==> sh in r'.shares)
            && forall c: nat :: ServedBy(r', s.id, c) && c != s.ctrl ==> r.next <= c
  {
    var s := r.shares[sh];
    forall c: nat ensures ServedBy(r', s.id, c) <==> Held(r', s.id) && r'.shares[r'.tcpShares[s.id]].ctrl == c {
      ServedWhenHeld(r', s.id, c);
    }
    hide ServedBy, Stands, Named;
    BelowNext(r);
    hide Inv;
    if sh in r'.shares {
      SameShare(r, r', sh);
      InPlace(r', sh);
    } else if Held(r', s.id) {
      LaterShare(r, r', sh);
    }
  }

  /** A client comes, dies, and another takes its id: a worker the first one asked for serves the second. */
  function Replaced(u: string, v: string, spec: ShareSpec): seq<Event> {
    [ClientGreets(u, [spec]), Dies(1), Dies(0), ClientGreets(v, [spec])]
  }

  ghost predicate OneAdded(r: State, r': State, uuid: string, id: string) {
    && r'.ctrls == r.ctrls[uuid := r.next] && r'.tcpShares == r.tcpShares[id := r.next + 1]
    && r'.controllers == r.controllers[r.next := Controller(uuid, map[id := r.next + 1])]
    && r'.shares == r.shares[r.next + 1 := Share(id, r.next)] && r'.workers == r.workers && r'.next == r.next + 2
  }

  lemma GreetOne(r: State, uuid: string, spec: ShareSpec)
    requires !Known(r, uuid) && !Held(r, spec.id)
    ensures OneAdded(r, GreetClient(r, uuid, [spec]).0, uuid, spec.id)
  {
    var g := Greeted(r, uuid);
    assert !Held(g, spec.id);
    AddSharesOnce(g, r.next, [spec]);
    NoneMore(AddShare(g, r.next, spec.id), r.next, []);
    hide AddShares, Held;
  }

  lemma ServesTheNew(r: State, r': State, uuid: string, id: string)
    requires OneAdded(r, r', uuid, id)
    ensures ServedBy(r', id, r.next) && r.next in r'.controllers && r'.controllers[r.next].uuid == uuid
  {
  }

  lemma BothGo(r: State, r': State, uuid: string, id: string)
    requires OneAdded(r, r', uuid, id) && r.controllers == map[] && r.shares == map[] && r.workers == map[]
    ensures CanDie(r', r.next + 1) && CanDie(Died(r', r.next + 1), r.next)
    ensures var d := Died(Died(r', r.next + 1), r.next);
            d.controllers == map[] && d.shares == map[] && d.workers == map[] && d.next == r.next + 2
  {
  }

  lemma FourSteps(r: State, es: seq<Event>)
    requires |es| == 4 && Enabled(r, es[0])
    requires var a := Apply(r, es[0]);
             Enabled(a, es[1]) && Enabled(Apply(a, es[1]), es[2]) && Enabled(Apply(Apply(a, es[1]), es[2]), es[3])
    ensures IsRun(r, es)
    ensures After(r, es) == Apply(Apply(Apply(Apply(r, es[0]), es[1]), es[2]), es[3])
  {
    hide Apply, Enabled;
    var e1, e2, e3 := es[1..], es[1..][1..], es[1..][1..][1..];
    assert e1[0] == es[1] && e2[0] == es[2] && e3[0] == es[3] && e3[1..] == [];
    var a := Apply(r, es[0]);
    var b := Apply(a, es[1]);
    var c := Apply(b, es[2]);
    assert IsRun(c, e3) && After(c, e3) == Apply(c, es[3]);
    assert IsRun(b, e2) && After(b, e2) == After(c, e3);
    assert IsRun(a, e1) && After(a, e1) == After(b, e2);
  }

  lemma LateWorkerChangesClient(u: string, v: string, spec: ShareSpec)
    ensures IsRun(NO_CLIENTS, Replaced(u, v, spec))
    ensures var first := Apply(NO_CLIENTS, ClientGreets(u, [spec]));
            ServedBy(first, spec.id, 0) && 0 in first.controllers && first.controllers[0].uuid == u
    ensures var r := After(NO_CLIENTS, Replaced(u, v, spec));
            ServedBy(r, spec.id, 2) && 2 in r.controllers && r.controllers[2].uuid == v
  {
    var none, es := NO_CLIENTS, Replaced(u, v, spec);
    hide GreetClient, ServedBy, IsRun, After, Died, CanDie, OneAdded;
    GreetOne(none, u, spec);
    var first := Apply(none, es[0]);
    ServesTheNew(none, first, u, spec.id);
    BothGo(none, first, u, spec.id);
    var third := Died(Died(first, 1), 0);
    GreetOne(third, v, spec);
    ServesTheNew(third, Apply(third, es[3]), v, spec.id);
    FourSteps(none, es);
  }

  // ---- Entered workers ------------------------------------------------------------------

  /** The registries, and the maps in which shares keep their workers. */
  datatype Roster = Roster(reg: State, entries: Entries)

  datatype Turn = Happens(e: Event) | Enters(w: nat, id: Int32)

  predicate CanTurn(t: Roster, x: Turn) { x.Happens? ==> Registry.Enabled(t.reg, x.e) }

  /** What the coroutine that enters a worker does, if the worker still lives. */
  function EnterWorker(t: Roster, w: nat, id: Int32): Roster {
    if w !in t.reg.workers then t
    else
      var sh := t.reg.workers[w];
      t.(entries := t.entries[sh := WithEntry(MapOf(t.entries, sh), t.reg.workers.Keys, w, id)])
  }

  function Turned(t: Roster, x: Turn): Roster
    requires CanTurn(t, x)
  {
    match x
    case Happens(e) => t.(reg := Registry.Apply(t.reg, e))
    case Enters(w, id) => EnterWorker(t, w, id)
  }

  ghost predicate IsRosterRun(t: Roster, xs: seq<Turn>)
    decreases |xs|
  {
    xs == [] || (CanTurn(t, xs[0]) && IsRosterRun(Turned(t, xs[0]), xs[1..]))
  }

  ghost function RosterAfter(t: Roster, xs: seq<Turn>): Roster
    requires IsRosterRun(t, xs)
    decreases |xs|
  {
    if xs == [] then t else RosterAfter(Turned(t, xs[0]), xs[1..])
  }

  /** What stopping share sh reaches. */
  ghost function Reached(t: Roster, sh: nat): set<nat> { WorkersIn(t.entries, t.reg.workers.Keys, {sh}) }

  /** A worker keeps its number and its share while it lives, and its number is not given again. */
  ghost predicate WorkersStand(r: State, r': State) {
    && r.next <= r'.next
    && forall w <- r'.workers :: w < r.next ==> w in r.workers && r'.workers[w] == r.workers[w]
  }

  lemma StepWorkers(r: State, e: Event)
    requires Inv(r) && Registry.Enabled(r, e)
    ensures WorkersStand(r, Registry.Apply(r, e))
  {
    StepStands(r, e);
    hide Inv;
    if e.ClientGreets? {
      GreetKeepsWorkers(r, e.uuid, e.specs);
      hide GreetClient;
    }
  }

  lemma GreetKeepsWorkers(r: State, uuid: string, specs: seq<ShareSpec>)
    ensures GreetClient(r, uuid, specs).0.workers == r.workers
  {
    if !Known(r, uuid) {
      AddSharesKeepsWorkers(Greeted(r, uuid), r.next, specs);
      hide AddShares;
    }
  }

  lemma {:induction false} AddSharesKeepsWorkers(r: State, c: nat, specs: seq<ShareSpec>)
    requires c in r.controllers
    ensures AddShares(r, c, specs).0.workers == r.workers
    decreases |specs|
  {
    if specs != [] && !Held(r, specs[0].id) {
      AddSharesOnce(r, c, specs);
      hide AddShares;
      AddSharesKeepsWorkers(AddShare(r, c, specs[0].id), c, specs[1..]);
    } else {
      NoneMore(r, c, specs);
    }
  }

  lemma EntryKept(t: Roster, sh: nat, w: nat, v: nat, id: Int32)
    requires w in Reached(t, sh)
    ensures w in Reached(EnterWorker(t, v, id), sh)
  {
    WorkersInMaps(t.entries, t.reg.workers.Keys, {sh});
    var m := MapOf(t.entries, sh);
    var i :| i in m && m[i] == w;
    var t' := EnterWorker(t, v, id);
    var m' := MapOf(t'.entries, sh);
    assert i in m' && m'[i] == w;
    WorkersInMaps(t'.entries, t'.reg.workers.Keys, {sh});
    hide WorkersIn;
    assert InMap(m', w);
  }

  /** A worker that is reached, and one that a step leaves alive, is reached after it. */
  lemma TurnKeepsReached(t: Roster, x: Turn, sh: nat, w: nat)
    requires Inv(t.reg) && CanTurn(t, x) && w in Reached(t, sh) && w in Turned(t, x).reg.workers
    ensures w in Reached(Turned(t, x), sh)
  {
    if x.Enters? {
      EntryKept(t, sh, w, x.w, x.id);
    } else {
      hide Inv;
    }
  }

  lemma TurnKept(t: Roster, x: Turn)
    requires Inv(t.reg) && CanTurn(t, x)
    ensures Inv(Turned(t, x).reg) && WorkersStand(t.reg, Turned(t, x).reg)
  {
    if x.Happens? {
      ApplyKept(t.reg, x.e);
      StepWorkers(t.reg, x.e);
    } else {
      assert Turned(t, x).reg == t.reg;
    }
  }

  lemma {:induction false} DeadStaysDead(t: Roster, xs: seq<Turn>, w: nat)
    requires Inv(t.reg) && IsRosterRun(t, xs) && w < t.reg.next && w !in t.reg.workers
    ensures w !in RosterAfter(t, xs).reg.workers
    decreases |xs|
  {
    if xs != [] {
      TurnKept(t, xs[0]);
      var m := Turned(t, xs[0]);
      assert w !in m.reg.workers && w < m.reg.next;
      hide Inv, Turned, CanTurn;
      DeadStaysDead(m, xs[1..], w);
    }
  }

  lemma {:induction false} ReachedTillDeath(t: Roster, xs: seq<Turn>, sh: nat, w: nat)
    requires Inv(t.reg) && IsRosterRun(t, xs) && w in Reached(t, sh) && w < t.reg.next
    ensures var t' := RosterAfter(t, xs); w in t'.reg.workers ==> w in Reached(t', sh)
    decreases |xs|
  {
    if xs != [] {
      var m := Turned(t, xs[0]);
      TurnKept(t, xs[0]);
      assert w < m.reg.next;
      if w in m.reg.workers {
        TurnKeepsReached(t, xs[0], sh, w);
        hide Inv, Turned, CanTurn, Reached;
        ReachedTillDeath(m, xs[1..], sh, w);
      } else {
        hide Inv, Turned, CanTurn, Reached;
        DeadStaysDead(m, xs[1..], w);
      }
    }
  }

  lemma {:induction false} RosterKept(t: Roster, xs: seq<Turn>)
    requires Inv(t.reg) && IsRosterRun(t, xs)
    ensures Inv(RosterAfter(t, xs).reg)
    decreases |xs|
  {
    hide Inv, Turned, CanTurn;
    if xs != [] {
      TurnKept(t, xs[0]);
      RosterKept(Turned(t, xs[0]), xs[1..]);
    }
  }

  /** A live worker other than w has the id in the map of share sh. */
  predicate TakenId(t: Roster, sh: nat, w: nat, id: Int32) {
    var m := MapOf(t.entries, sh);
    id in m && m[id] in t.reg.workers && m[id] != w
  }

  lemma EnteredExactly(t: Roster, w: nat, id: Int32)
    requires w in t.reg.workers
    ensures var sh := t.reg.workers[w];
            w in Reached(EnterWorker(t, w, id), sh) <==> w in Reached(t, sh) || !TakenId(t, sh, w, id)
  {
    var sh := t.reg.workers[w];
    var t' := EnterWorker(t, w, id);
    var m, m' := MapOf(t.entries, sh), MapOf(t'.entries, sh);
    WorkersInMaps(t.entries, t.reg.workers.Keys, {sh});
    WorkersInMaps(t'.entries, t'.reg.workers.Keys, {sh});
    if w in Reached(t, sh) {
      EntryKept(t, sh, w, w, id);
    } else if !TakenId(t, sh, w, id) {
      assert id in m' && m'[id] == w && InMap(m', w);
    }
  }

  const NO_ROSTER := Roster(NO_CLIENTS, map[])

  /**
   In every run of greetings, deaths and entering workers: a live worker that is entered is
   reached by a stop of its share from then on, in every continuation, for as long as it
   lives; unless a live worker of the share has its id, when it is reached only if it was
   before.
   */
  lemma EnteredUntilDeath(past: seq<Turn>, w: nat, id: Int32, xs: seq<Turn>)
    requires IsRosterRun(NO_ROSTER, past) && w in RosterAfter(NO_ROSTER, past).reg.workers
    requires IsRosterRun(EnterWorker(RosterAfter(NO_ROSTER, past), w, id), xs)
    ensures var t := RosterAfter(NO_ROSTER, past);
            var sh, t' := t.reg.workers[w], EnterWorker(t, w, id);
            && (w in Reached(t', sh) <==> w in Reached(t, sh) || !TakenId(t, sh, w, id))
            && (w in Reached(t', sh) && w in RosterAfter(t', xs).reg.workers ==> w in Reached(RosterAfter(t', xs), sh))
  {
    var none := NO_ROSTER;
    assert Inv(none.reg);
    hide Inv, IsRosterRun, RosterAfter, EnterWorker, Reached, TakenId;
    RosterKept(none, past);
    var t := RosterAfter(none, past);
    EnteredExactly(t, w, id);
    EntersOnly(t, w, id);
    if w in Reached(EnterWorker(t, w, id), t.reg.workers[w]) {
      ReachedTillDeath(EnterWorker(t, w, id), xs, t.reg.workers[w], w);
    }
  }

  lemma EntersOnly(t: Roster, w: nat, id: Int32)
    requires Inv(t.reg) && w in t.reg.workers
    ensures EnterWorker(t, w, id).reg == t.reg && w < t.reg.next
  {
  }
}

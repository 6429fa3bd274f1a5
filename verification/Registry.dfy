/**
 The server's registries.  They refer weakly to controllers and shares; a share keeps
 its controller alive, and a worker keeps its share alive.  Objects are named by
 numbers that are never used again; an object that is not in its table is dead.
 */
module Registry {
  import opened Messages

  datatype Controller = Controller(uuid: string, shares: map<string, nat>)

  datatype Share = Share(id: string, ctrl: nat)

  /**
   `ctrls` and `tcpShares` are the registries by uuid and by share id, and may refer
   to dead objects; `controllers`, `shares` and `workers` hold the live objects, a
   worker with the share it belongs to.
   */
  datatype State = State(
    ctrls: map<string, nat>,
    tcpShares: map<string, nat>,
    controllers: map<nat, Controller>,
    shares: map<nat, Share>,
    workers: map<nat, nat>,
    next: nat)

  const NO_CLIENTS := State(map[], map[], map[], map[], map[], 0)

  datatype Outcome = Registered | DuplicateClient | DuplicateShare(id: string)

  datatype WorkerOutcome = WorkerAdded(w: nat) | UnknownShare | ShareClosed

  predicate Held(r: State, id: string) { id in r.tcpShares && r.tcpShares[id] in r.shares }

  predicate Known(r: State, uuid: string) { uuid in r.ctrls && r.ctrls[uuid] in r.controllers }

  /** A controller's own map keeps an entry that is already there. */
  function Entered(c: Controller, id: string, sh: nat): Controller {
    if id in c.shares then c else c.(shares := c.shares[id := sh])
  }

  function AddShare(r: State, c: nat, id: string): State
    requires c in r.controllers
  {
    r.(tcpShares := r.tcpShares[id := r.next],
       controllers := r.controllers[c := Entered(r.controllers[c], id, r.next)],
       shares := r.shares[r.next := Share(id, c)],
       next := r.next + 1)
  }

  /** Adds shares to controller c until one is held; the second part is how many were added. */
  function AddShares(r: State, c: nat, specs: seq<ShareSpec>): (State, nat)
    requires c in r.controllers
    decreases |specs|
  {
    if specs == [] || Held(r, specs[0].id) then (r, 0)
    else
      var (r', n) := AddShares(AddShare(r, c, specs[0].id), c, specs[1..]);
      (r', n + 1)
  }

  /** The registries with a new controller, which only the greeting keeps alive so far. */
  function Greeted(r: State, uuid: string): State {
    r.(ctrls := r.ctrls[uuid := r.next], controllers := r.controllers[r.next := Controller(uuid, map[])],
      next := r.next + 1)
  }

  function GreetClient(r: State, uuid: string, specs: seq<ShareSpec>): (State, Outcome) {
    if Known(r, uuid) then (r.(next := r.next + 1), DuplicateClient)
    else
      var (r', n) := AddShares(Greeted(r, uuid), r.next, specs);
      if n >= |specs| then (r', Registered)
      else (if n == 0 then r'.(controllers := r'.controllers - {r.next}) else r', DuplicateShare(specs[n].id))
  }

  function GreetWorker(r: State, id: string): (State, WorkerOutcome) {
    if id !in r.tcpShares then (r, UnknownShare)
    else if r.tcpShares[id] !in r.shares then (r, ShareClosed)
    else (r.(workers := r.workers[r.next := r.tcpShares[id]], next := r.next + 1), WorkerAdded(r.next))
  }

  // An object dies when nothing holds it any more; its coroutines may end at any time.

  predicate CanDie(r: State, x: nat) {
    || x in r.workers
    || (x in r.shares && forall w <- r.workers :: r.workers[w] != x)
    || (x in r.controllers && forall sh <- r.shares :: r.shares[sh].ctrl != x)
  }

  function Died(r: State, x: nat): State {
    r.(workers := r.workers - {x}, shares := r.shares - {x}, controllers := r.controllers - {x})
  }

  datatype Event = ClientGreets(uuid: string, specs: seq<ShareSpec>) | WorkerGreets(id: string) | Dies(x: nat)

  predicate Enabled(r: State, e: Event) { e.Dies? ==> CanDie(r, e.x) }

  function Apply(r: State, e: Event): State {
    match e
    case ClientGreets(uuid, specs) => GreetClient(r, uuid, specs).0
    case WorkerGreets(id) => GreetWorker(r, id).0
    case Dies(x) => Died(r, x)
  }

  ghost predicate IsRun(r: State, es: seq<Event>)
    decreases |es|
  {
    es == [] || (Enabled(r, es[0]) && IsRun(Apply(r, es[0]), es[1..]))
  }

  ghost function After(r: State, es: seq<Event>): State
    requires IsRun(r, es)
    decreases |es|
  {
    if es == [] then r else After(Apply(r, es[0]), es[1..])
  }

  // ---- What the registries always satisfy ---------------------------------------

  /** A live share is the one stored under its id, and under it in the map of its live controller. */
  ghost predicate ShareInPlace(r: State, sh: nat)
    requires sh in r.shares
  {
    var s := r.shares[sh];
    && s.id in r.tcpShares && r.tcpShares[s.id] == sh
    && s.ctrl in r.controllers
    && s.id in r.controllers[s.ctrl].shares && r.controllers[s.ctrl].shares[s.id] == sh
  }

  /** A live controller is the one stored under its uuid; its map names shares of its own, dead or alive. */
  ghost predicate CtrlInPlace(r: State, c: nat)
    requires c in r.controllers
  {
    var k := r.controllers[c];
    && k.uuid in r.ctrls && r.ctrls[k.uuid] == c
    && forall id <- k.shares :: k.shares[id] in r.shares ==> r.shares[k.shares[id]].id == id
  }

  ghost predicate Numbered(r: State) {
    && (forall x <- r.controllers :: x < r.next && x !in r.shares && x !in r.workers)
    && (forall x <- r.shares :: x < r.next && x !in r.workers)
    && (forall x <- r.workers :: x < r.next)
    && (forall id <- r.tcpShares :: r.tcpShares[id] < r.next)
    && (forall u <- r.ctrls :: r.ctrls[u] < r.next)
    && (forall c <- r.controllers, id <- r.controllers[c].shares :: r.controllers[c].shares[id] < r.next)
  }

  ghost predicate Inv(r: State) {
    && Numbered(r)
    && (forall sh <- r.shares :: ShareInPlace(r, sh))
    && (forall c <- r.controllers :: CtrlInPlace(r, c))
    && (forall w <- r.workers :: r.workers[w] in r.shares)
  }

  /** In the middle of a greeting: everything in controller c's map is alive. */
  ghost predicate AllAlive(r: State, c: nat) {
    && c in r.controllers
    && forall id <- r.controllers[c].shares ::
         Held(r, id) && r.tcpShares[id] == r.controllers[c].shares[id]
  }

  /** What adding a share does, and that it takes nothing from the other controllers and shares. */
  ghost predicate Adds(r: State, r': State, c: nat, id: string) {
    && r.next !in r.shares && r.next !in r.controllers && r.next !in r.workers
    && c in r.controllers && r'.controllers.Keys == r.controllers.Keys
    && r'.controllers[c] == r.controllers[c].(shares := r.controllers[c].shares[id := r.next])
    && (forall k <- r.controllers :: k != c ==> r'.controllers[k] == r.controllers[k])
    && r'.shares == r.shares[r.next := Share(id, c)] && r'.tcpShares == r.tcpShares[id := r.next]
    && r'.ctrls == r.ctrls && r'.workers == r.workers && r'.next == r.next + 1
  }

  lemma AddShareAdds(r: State, c: nat, id: string)
    requires Inv(r) && AllAlive(r, c) && !Held(r, id)
    ensures Adds(r, AddShare(r, c, id), c, id)
  {
    assert id !in r.controllers[c].shares;
  }

  lemma ShareStays(r: State, r': State, c: nat, id: string, sh: nat)
    requires Adds(r, r', c, id) && !Held(r, id) && sh in r.shares && ShareInPlace(r, sh)
    ensures sh in r'.shares && ShareInPlace(r', sh)
  {
    assert r.shares[sh].id != id && sh != r.next;
  }

  lemma NewShareInPlace(r: State, r': State, c: nat, id: string)
    requires Adds(r, r', c, id)
    ensures r.next in r'.shares && ShareInPlace(r', r.next)
  {
  }

  lemma CtrlStays(r: State, r': State, c: nat, id: string, k: nat)
    requires Adds(r, r', c, id) && k in r.controllers && CtrlInPlace(r, k)
    requires forall x <- r.controllers[k].shares :: r.controllers[k].shares[x] < r.next
    ensures k in r'.controllers && CtrlInPlace(r', k)
  {
  }

  lemma NumbersStay(r: State, r': State, c: nat, id: string)
    requires Adds(r, r', c, id) && Numbered(r)
    ensures Numbered(r')
  {
    forall k, x | k in r'.controllers && x in r'.controllers[k].shares ensures r'.controllers[k].shares[x] < r'.next {
      if k == c && x == id {
      } else {
        assert x in r.controllers[k].shares;
      }
    }
  }

  lemma AliveStays(r: State, r': State, c: nat, id: string)
    requires Adds(r, r', c, id) && AllAlive(r, c)
    ensures AllAlive(r', c)
  {
  }

  lemma SharesStay(r: State, r': State, c: nat, id: string)
    requires Adds(r, r', c, id) && !Held(r, id) && forall sh <- r.shares :: ShareInPlace(r, sh)
    ensures forall sh <- r'.shares :: ShareInPlace(r', sh)
  {
    hide ShareInPlace, Held;
    NewShareInPlace(r, r', c, id);
    assert forall sh <- r'.shares :: sh == r.next || sh in r.shares;
    hide Adds;
    forall sh | sh in r.shares ensures sh in r'.shares && ShareInPlace(r', sh) {
      ShareStays(r, r', c, id, sh);
    }
  }

  lemma CtrlsStay(r: State, r': State, c: nat, id: string)
    requires Adds(r, r', c, id) && Numbered(r) && forall k <- r.controllers :: CtrlInPlace(r, k)
    ensures forall k <- r'.controllers :: CtrlInPlace(r', k)
  {
    hide CtrlInPlace;
    forall k | k in r'.controllers ensures CtrlInPlace(r', k) {
      assert forall x <- r.controllers[k].shares :: r.controllers[k].shares[x] < r.next;
      hide Adds, Numbered;
      CtrlStays(r, r', c, id, k);
    }
  }

  lemma WorkersStay(r: State, r': State, c: nat, id: string)
    requires Adds(r, r', c, id) && forall w <- r.workers :: r.workers[w] in r.shares
    ensures forall w <- r'.workers :: r'.workers[w] in r'.shares
  {
  }

  lemma AddsKept(r: State, r': State, c: nat, id: string)
    requires Adds(r, r', c, id) && Inv(r) && AllAlive(r, c) && !Held(r, id)
    ensures Inv(r') && AllAlive(r', c)
  {
    hide Adds, Numbered, AllAlive, ShareInPlace, CtrlInPlace, Held;
    NumbersStay(r, r', c, id);
    AliveStays(r, r', c, id);
    SharesStay(r, r', c, id);
    CtrlsStay(r, r', c, id);
    WorkersStay(r, r', c, id);
  }

  /** Of the shares offered, n are those before the first whose id is held, or was offered before. */
  ghost predicate LongestPrefix(r: State, specs: seq<ShareSpec>, n: nat) {
    && n <= |specs|
    && (forall i :: 0 <= i < n ==> !Held(r, specs[i].id))
    && (forall i, j :: 0 <= i < j < n ==> specs[i].id != specs[j].id)
    && (n < |specs| ==> Held(r, specs[n].id) || exists j :: 0 <= j < n && specs[j].id == specs[n].id)
  }

  /** The first n shares offered are live, stored under their ids, and belong to c. */
  ghost predicate NewShares(next: nat, r': State, c: nat, specs: seq<ShareSpec>, n: nat) {
    n <= |specs| &&
    forall i :: 0 <= i < n ==>
      && specs[i].id in r'.tcpShares && r'.tcpShares[specs[i].id] == next + i
      && next + i in r'.shares && r'.shares[next + i] == Share(specs[i].id, c)
  }

  ghost predicate OtherIds(r: State, r': State, specs: seq<ShareSpec>, n: nat) {
    n <= |specs| &&
    forall id: string :: (forall i :: 0 <= i < n ==> specs[i].id != id) ==>
      (id in r'.tcpShares <==> id in r.tcpShares) && (id in r.tcpShares ==> r'.tcpShares[id] == r.tcpShares[id])
  }

  ghost predicate OtherObjects(r: State, r': State, c: nat, n: nat) {
    && r'.next == r.next + n && r'.ctrls == r.ctrls && r'.workers == r.workers
    && (forall sh: nat :: sh < r.next || sh >= r.next + n ==>
          (sh in r'.shares <==> sh in r.shares) && (sh in r.shares ==> r'.shares[sh] == r.shares[sh]))
    && r'.controllers.Keys == r.controllers.Keys
    && (forall k <- r.controllers :: k != c ==> r'.controllers[k] == r.controllers[k])
  }

  ghost predicate AddedExactly(r: State, r': State, c: nat, specs: seq<ShareSpec>, n: nat) {
    NewShares(r.next, r', c, specs, n) && OtherIds(r, r', specs, n) && OtherObjects(r, r', c, n)
  }

  lemma OneMore(r: State, m: State, c: nat, specs: seq<ShareSpec>, n: nat)
    requires specs != [] && Adds(r, m, c, specs[0].id) && !Held(r, specs[0].id) && Numbered(r)
    requires LongestPrefix(m, specs[1..], n)
    ensures LongestPrefix(r, specs, n + 1)
  {
    var id := specs[0].id;
    assert forall x: string :: Held(m, x) <==> Held(r, x) || x == id;
    hide Held, Adds, Numbered;
    forall i | 0 <= i < n + 1 ensures !Held(r, specs[i].id) {
      if i > 0 {
        assert specs[i] == specs[1..][i - 1];
      }
    }
    forall i, j | 0 <= i < j < n + 1 ensures specs[i].id != specs[j].id {
      assert specs[j] == specs[1..][j - 1];
      if i > 0 {
        assert specs[i] == specs[1..][i - 1];
      }
    }
    if n + 1 < |specs| && !Held(r, specs[n + 1].id) {
      assert specs[n + 1] == specs[1..][n];
      if specs[n + 1].id != id {
        var j :| 0 <= j < n && specs[1..][j].id == specs[1..][n].id;
        assert specs[j + 1].id == specs[n + 1].id;
      }
    }
  }

  lemma FirstShare(r: State, m: State, c: nat, specs: seq<ShareSpec>, r': State, n: nat)
    requires specs != [] && Adds(r, m, c, specs[0].id)
    requires OtherIds(m, r', specs[1..], n) && OtherObjects(m, r', c, n)
    requires forall j :: 0 <= j < n ==> specs[1..][j].id != specs[0].id
    ensures NewShares(r.next, r', c, specs, 1)
  {
    var id := specs[0].id;
    assert id in m.tcpShares && m.tcpShares[id] == r.next && r.next in m.shares && m.shares[r.next] == Share(id, c);
    assert m.next == r.next + 1;
    hide Adds;
  }

  lemma MoreShares(next: nat, r': State, c: nat, specs: seq<ShareSpec>, n: nat)
    requires specs != [] && NewShares(next, r', c, specs, 1) && NewShares(next + 1, r', c, specs[1..], n)
    ensures NewShares(next, r', c, specs, n + 1)
  {
    forall i | 0 <= i < n + 1
      ensures specs[i].id in r'.tcpShares && r'.tcpShares[specs[i].id] == next + i
      ensures next + i in r'.shares && r'.shares[next + i] == Share(specs[i].id, c)
    {
      if i > 0 {
        assert specs[i] == specs[1..][i - 1];
      }
    }
  }

  lemma OneLessId(r: State, m: State, c: nat, specs: seq<ShareSpec>, r': State, n: nat)
    requires specs != [] && Adds(r, m, c, specs[0].id) && OtherIds(m, r', specs[1..], n)
    ensures OtherIds(r, r', specs, n + 1)
  {
    forall x: string | forall i :: 0 <= i < n + 1 ==> specs[i].id != x
      ensures (x in r'.tcpShares <==> x in r.tcpShares) && (x in r.tcpShares ==> r'.tcpShares[x] == r.tcpShares[x])
    {
      assert specs[0].id != x;
      assert forall j :: 0 <= j < n ==> specs[1..][j] == specs[j + 1];
    }
  }

  lemma OneLessObject(r: State, m: State, c: nat, id: string, r': State, n: nat)
    requires Adds(r, m, c, id) && OtherObjects(m, r', c, n)
    ensures OtherObjects(r, r', c, n + 1)
  {
  }

  lemma FirstIsNew(r: State, m: State, c: nat, specs: seq<ShareSpec>, n: nat)
    requires specs != [] && Adds(r, m, c, specs[0].id) && LongestPrefix(m, specs[1..], n)
    ensures forall j :: 0 <= j < n ==> specs[1..][j].id != specs[0].id
  {
    assert Held(m, specs[0].id);
  }

  /** One more share in front of those that were added exactly. */
  lemma OneMoreAdded(r: State, m: State, c: nat, specs: seq<ShareSpec>, r': State, n: nat)
    requires specs != [] && Adds(r, m, c, specs[0].id) && !Held(r, specs[0].id) && Numbered(r)
    requires LongestPrefix(m, specs[1..], n) && AddedExactly(m, r', c, specs[1..], n)
    ensures LongestPrefix(r, specs, n + 1) && AddedExactly(r, r', c, specs, n + 1)
  {
    assert m.next == r.next + 1;
    hide Held, Adds, Numbered, LongestPrefix, NewShares, OtherIds, OtherObjects;
    FirstIsNew(r, m, c, specs, n);
    OneMore(r, m, c, specs, n);
    FirstShare(r, m, c, specs, r', n);
    MoreShares(r.next, r', c, specs, n);
    OneLessId(r, m, c, specs, r', n);
    OneLessObject(r, m, c, specs[0].id, r', n);
  }

  lemma AddedOne(r: State, c: nat, id: string)
    requires Inv(r) && AllAlive(r, c) && !Held(r, id)
    ensures Inv(AddShare(r, c, id)) && AllAlive(AddShare(r, c, id), c)
  {
    AddShareAdds(r, c, id);
    var r' := AddShare(r, c, id);
    hide AddShare, Inv, AllAlive, Held, Adds;
    AddsKept(r, r', c, id);
  }

  lemma ConsAdded(r: State, c: nat, specs: seq<ShareSpec>, r': State, n: nat)
    requires Inv(r) && AllAlive(r, c) && specs != [] && !Held(r, specs[0].id)
    requires var m := AddShare(r, c, specs[0].id);
             LongestPrefix(m, specs[1..], n) && AddedExactly(m, r', c, specs[1..], n)
    ensures LongestPrefix(r, specs, n + 1) && AddedExactly(r, r', c, specs, n + 1)
  {
    AddShareAdds(r, c, specs[0].id);
    InvNumbered(r, c);
    var m := AddShare(r, c, specs[0].id);
    hide AddShare, Inv, AllAlive, Held, Adds, Numbered, LongestPrefix, AddedExactly;
    OneMoreAdded(r, m, c, specs, r', n);
  }

  lemma NoneAdded(r: State, c: nat, specs: seq<ShareSpec>)
    requires specs == [] || Held(r, specs[0].id)
    ensures LongestPrefix(r, specs, 0) && AddedExactly(r, r, c, specs, 0)
  {
  }

  lemma InvNumbered(r: State, c: nat)
    requires Inv(r) && AllAlive(r, c)
    ensures Numbered(r) && c in r.controllers
  {
  }

  lemma AddSharesOnce(r: State, c: nat, specs: seq<ShareSpec>)
    requires c in r.controllers && specs != [] && !Held(r, specs[0].id)
    ensures var m := AddShare(r, c, specs[0].id);
            && c in m.controllers
            && AddShares(r, c, specs).0 == AddShares(m, c, specs[1..]).0
            && AddShares(r, c, specs).1 == AddShares(m, c, specs[1..]).1 + 1
  {
    hide Held;
  }

  lemma NoneMore(r: State, c: nat, specs: seq<ShareSpec>)
    requires c in r.controllers && (specs == [] || Held(r, specs[0].id))
    ensures AddShares(r, c, specs) == (r, 0)
  {
  }

  lemma {:induction false} AddSharesKept(r: State, c: nat, specs: seq<ShareSpec>)
    requires Inv(r) && AllAlive(r, c)
    ensures c in r.controllers
    ensures var (r', n) := AddShares(r, c, specs);
            && Inv(r') && AllAlive(r', c)
            && LongestPrefix(r, specs, n) && AddedExactly(r, r', c, specs, n)
    decreases |specs|
  {
    hide *;
    InvNumbered(r, c);
    if specs == [] || Held(r, specs[0].id) {
      NoneMore(r, c, specs);
      NoneAdded(r, c, specs);
    } else {
      AddSharesOnce(r, c, specs);
      var m := AddShare(r, c, specs[0].id);
      AddedOne(r, c, specs[0].id);
      AddSharesKept(m, c, specs[1..]);
      ConsAdded(r, c, specs, AddShares(r, c, specs).0, AddShares(m, c, specs[1..]).1);
    }
  }

  lemma Bounded(r: State, specs: seq<ShareSpec>, n: nat)
    requires LongestPrefix(r, specs, n)
    ensures n <= |specs|
  {
  }

  /** A prefix is determined by what it says. */
  lemma OneLongestPrefix(r: State, specs: seq<ShareSpec>, n: nat, m: nat)
    requires LongestPrefix(r, specs, n) && LongestPrefix(r, specs, m)
    ensures n == m
  {
    hide Held;
  }

  // ---- Every event keeps the registries in place -----------------------------------

  lemma GreetedKept(r: State, uuid: string)
    requires Inv(r) && !Known(r, uuid)
    ensures Inv(Greeted(r, uuid)) && AllAlive(Greeted(r, uuid), r.next)
  {
    var r' := Greeted(r, uuid);
    assert r.next !in r.controllers && r.next !in r.shares;
    forall sh | sh in r'.shares ensures ShareInPlace(r', sh) {
      assert ShareInPlace(r, sh);
    }
    forall k | k in r'.controllers ensures CtrlInPlace(r', k) {
      if k != r.next {
        assert CtrlInPlace(r, k) && r.controllers[k].uuid != uuid;
      }
    }
  }

  /** A controller without a live share can go. */
  lemma CtrlGone(r: State, c: nat)
    requires Inv(r) && forall sh <- r.shares :: r.shares[sh].ctrl != c
    ensures Inv(r.(controllers := r.controllers - {c}))
  {
    var r' := r.(controllers := r.controllers - {c});
    forall sh | sh in r'.shares ensures ShareInPlace(r', sh) {
      assert ShareInPlace(r, sh);
    }
    forall k | k in r'.controllers ensures CtrlInPlace(r', k) {
      assert CtrlInPlace(r, k);
    }
  }

  lemma ShareGone(r: State, x: nat)
    requires Inv(r) && forall w <- r.workers :: r.workers[w] != x
    ensures Inv(r.(shares := r.shares - {x}))
  {
    var r' := r.(shares := r.shares - {x});
    forall sh | sh in r'.shares ensures ShareInPlace(r', sh) {
      assert ShareInPlace(r, sh);
    }
    forall k | k in r'.controllers ensures CtrlInPlace(r', k) {
      assert CtrlInPlace(r, k);
    }
  }

  /** The workers or the count of numbers changed, and all shares of workers are alive. */
  lemma WorkersChanged(r: State, workers: map<nat, nat>, next: nat)
    requires Inv(r) && r.next <= next && forall w <- workers :: w < next && workers[w] in r.shares
    requires forall w <- workers :: w !in r.shares && w !in r.controllers
    ensures Inv(r.(workers := workers, next := next))
  {
    var r' := r.(workers := workers, next := next);
    forall sh | sh in r'.shares ensures ShareInPlace(r', sh) {
      assert ShareInPlace(r, sh);
    }
    forall k | k in r'.controllers ensures CtrlInPlace(r', k) {
      assert CtrlInPlace(r, k);
    }
  }

  lemma DiedKept(r: State, x: nat)
    requires Inv(r) && CanDie(r, x)
    ensures Inv(Died(r, x))
  {
    hide ShareInPlace, CtrlInPlace;
    if x in r.workers {
      assert Died(r, x) == r.(workers := r.workers - {x}, next := r.next);
      WorkersChanged(r, r.workers - {x}, r.next);
    } else if x in r.shares {
      assert Died(r, x) == r.(shares := r.shares - {x});
      ShareGone(r, x);
    } else {
      assert Died(r, x) == r.(controllers := r.controllers - {x});
      CtrlGone(r, x);
    }
  }

  lemma GreetWorkerKept(r: State, id: string)
    requires Inv(r)
    ensures Inv(GreetWorker(r, id).0)
  {
    if id in r.tcpShares && r.tcpShares[id] in r.shares {
      WorkersChanged(r, r.workers[r.next := r.tcpShares[id]], r.next + 1);
    }
  }

  lemma GreetedOnly(r: State, uuid: string)
    ensures var g := Greeted(r, uuid);
            g.tcpShares == r.tcpShares && g.shares == r.shares && g.next == r.next + 1 && r.next in g.controllers
  {
  }

  lemma AddedMeans(r: State, r': State, c: nat, specs: seq<ShareSpec>, n: nat)
    requires AddedExactly(r, r', c, specs, n)
    ensures NewShares(r.next, r', c, specs, n) && OtherIds(r, r', specs, n) && OtherObjects(r, r', c, n)
  {
  }

  /** What the loop over the shares of a new controller does. */
  lemma GreetedAdds(r: State, uuid: string, specs: seq<ShareSpec>)
    requires Inv(r) && !Known(r, uuid)
    ensures r.next in Greeted(r, uuid).controllers
    ensures var g := Greeted(r, uuid);
            var (r1, n) := AddShares(g, r.next, specs);
            && Inv(r1) && r.next in r1.controllers && LongestPrefix(r, specs, n)
            && NewShares(r.next + 1, r1, r.next, specs, n) && OtherIds(r, r1, specs, n) &&
              OtherObjects(g, r1, r.next, n)
  {
    hide *;
    var g := Greeted(r, uuid);
    GreetedKept(r, uuid);
    GreetedOnly(r, uuid);
    AddSharesKept(g, r.next, specs);
    var (r1, n) := AddShares(g, r.next, specs);
    AddedMeans(g, r1, r.next, specs, n);
    SameShares(r, g, r1, specs, n);
    InvNumbered(r1, r.next);
  }

  /** The objects there were are still there, and the new shares are numbered in a row. */
  ghost predicate Extends(r: State, r': State, n: nat) {
    && r'.workers == r.workers
    && (forall sh <- r.shares :: sh in r'.shares && r'.shares[sh] == r.shares[sh])
    && (forall sh <- r'.shares :: sh in r.shares || r.next < sh <= r.next + n)
    && (forall k <- r.controllers :: k in r'.controllers && r'.controllers[k] == r.controllers[k])
  }

  lemma GreetedExtends(r: State, uuid: string, r1: State, n: nat)
    requires Inv(r) && OtherObjects(Greeted(r, uuid), r1, r.next, n)
    ensures Extends(r, r1, n) && Extends(r, r1.(controllers := r1.controllers - {r.next}), n)
    ensures r1.ctrls == r.ctrls[uuid := r.next]
    ensures n == 0 ==> forall sh <- r1.shares :: r1.shares[sh].ctrl != r.next
  {
    BelowNext(r);
    hide Inv;
    var g := Greeted(r, uuid);
    assert g.shares == r.shares && g.workers == r.workers && g.next == r.next + 1;
    assert g.ctrls == r.ctrls[uuid := r.next];
    assert forall k <- r.controllers :: k in g.controllers && g.controllers[k] == r.controllers[k];
    hide Greeted;
    SameObjects(r, g, r1, n);
  }

  lemma SameObjects(r: State, g: State, r1: State, n: nat)
    requires g.shares == r.shares && g.workers == r.workers && g.next == r.next + 1
    requires forall k <- r.controllers :: k < r.next && k in g.controllers && g.controllers[k] == r.controllers[k]
    requires forall sh <- r.shares :: sh < r.next && r.shares[sh].ctrl < r.next
    requires OtherObjects(g, r1, r.next, n)
    ensures Extends(r, r1, n) && Extends(r, r1.(controllers := r1.controllers - {r.next}), n)
    ensures n == 0 ==> forall sh <- r1.shares :: r1.shares[sh].ctrl != r.next
  {
  }

  /**
   What comes of a greeting that passes the check of its uuid: the longest prefix of
   its shares whose ids are neither held nor repeated is registered, under a new
   controller, whatever the answer; on a rejection that prefix keeps the controller
   alive, and without it the controller is gone.
   */
  lemma HelloRegistersPrefix(r: State, uuid: string, specs: seq<ShareSpec>) returns (n: nat)
    requires Inv(r) && !Known(r, uuid)
    ensures LongestPrefix(r, specs, n) && n <= |specs|
    ensures var (r', o) := GreetClient(r, uuid, specs);
            && NewShares(r.next + 1, r', r.next, specs, n) && OtherIds(r, r', specs, n) && Extends(r, r', n)
            && o == (if n == |specs| then Registered else DuplicateShare(specs[n].id))
            && (r.next in r'.controllers <==> o == Registered || n > 0)
            && r'.ctrls == r.ctrls[uuid := r.next]
    ensures Inv(GreetClient(r, uuid, specs).0)
  {
    GreetedAdds(r, uuid, specs);
    var r1 := AddShares(Greeted(r, uuid), r.next, specs).0;
    n := AddShares(Greeted(r, uuid), r.next, specs).1;
    Bounded(r, specs, n);
    hide Inv, AddShares, LongestPrefix, NewShares, OtherIds, OtherObjects, Extends, Known, Greeted;
    GreetedExtends(r, uuid, r1, n);
    if n == 0 && n < |specs| {
      CtrlGone(r1, r.next);
      var r2 := r1.(controllers := r1.controllers - {r.next});
      NewSharesNone(r.next + 1, r2, r.next, specs);
      OtherIdsOf(r, r1, r2, specs, n);
    }
  }

  lemma BelowNext(r: State)
    requires Inv(r)
    ensures forall sh <- r.shares :: sh < r.next && r.shares[sh].ctrl < r.next
    ensures forall k <- r.controllers :: k < r.next
  {
    forall sh | sh in r.shares ensures r.shares[sh].ctrl < r.next {
      assert ShareInPlace(r, sh);
    }
  }

  lemma NewSharesNone(next: nat, r': State, c: nat, specs: seq<ShareSpec>)
    ensures NewShares(next, r', c, specs, 0)
  {
  }

  lemma OtherIdsOf(r: State, r1: State, r2: State, specs: seq<ShareSpec>, n: nat)
    requires OtherIds(r, r1, specs, n) && r2.tcpShares == r1.tcpShares
    ensures OtherIds(r, r2, specs, n)
  {
  }

  /** Only shares matter to which shares are added. */
  lemma SameShares(r: State, g: State, r1: State, specs: seq<ShareSpec>, n: nat)
    requires g.tcpShares == r.tcpShares && g.shares == r.shares
    requires LongestPrefix(g, specs, n) && OtherIds(g, r1, specs, n)
    ensures LongestPrefix(r, specs, n) && OtherIds(r, r1, specs, n)
  {
    assert forall id: string :: Held(r, id) <==> Held(g, id);
    hide Held;
  }

  lemma GreetKept(r: State, uuid: string, specs: seq<ShareSpec>)
    requires Inv(r)
    ensures Inv(GreetClient(r, uuid, specs).0)
  {
    if Known(r, uuid) {
      WorkersSame(r);
      assert GreetClient(r, uuid, specs).0 == r.(workers := r.workers, next := r.next + 1);
      hide Inv;
    } else {
      hide *;
      var n := HelloRegistersPrefix(r, uuid, specs);
    }
  }

  lemma WorkersSame(r: State)
    requires Inv(r)
    ensures Inv(r.(workers := r.workers, next := r.next + 1))
  {
    WorkersChanged(r, r.workers, r.next + 1);
  }

  lemma ApplyKept(r: State, e: Event)
    requires Inv(r) && Enabled(r, e)
    ensures Inv(Apply(r, e))
  {
    hide Inv, GreetClient, GreetWorker, Died, CanDie;
    match e
    case ClientGreets(uuid, specs) => GreetKept(r, uuid, specs);
    case WorkerGreets(id) => GreetWorkerKept(r, id);
    case Dies(x) => DiedKept(r, x);
  }

  lemma {:induction false} RunKept(r: State, es: seq<Event>)
    requires Inv(r) && IsRun(r, es)
    ensures Inv(After(r, es))
    decreases |es|
  {
    hide Inv, Apply, Enabled;
    if es != [] {
      ApplyKept(r, es[0]);
      RunKept(Apply(r, es[0]), es[1..]);
    }
  }

  // ---- What the registries guarantee -------------------------------------------------

  /**
   In every run of greetings and deaths: one live share for an id, one live controller
   for a uuid, and every live share is in the map of its live controller, which is the
   one stored under its uuid.
   */
  lemma OneHolder(es: seq<Event>)
    requires IsRun(NO_CLIENTS, es)
    ensures var r := After(NO_CLIENTS, es);
            && (forall s, t :: s in r.shares && t in r.shares && r.shares[s].id == r.shares[t].id ==> s == t)
            && (forall c, d :: c in r.controllers && d in r.controllers ==>
                  r.controllers[c].uuid == r.controllers[d].uuid ==> c == d)
            && (forall s <- r.shares ::
                  var c := r.shares[s].ctrl;
                  && c in r.controllers && Known(r, r.controllers[c].uuid) && r.ctrls[r.controllers[c].uuid] == c
                  && r.shares[s].id in r.controllers[c].shares && r.controllers[c].shares[r.shares[s].id] == s)
  {
    RunKept(NO_CLIENTS, es);
    var r := After(NO_CLIENTS, es);
    forall s | s in r.shares ensures ShareInPlace(r, s) && CtrlInPlace(r, r.shares[s].ctrl) {
    }
    forall c | c in r.controllers ensures CtrlInPlace(r, c) {
    }
    hide Inv, Numbered;
  }

  /** After a rejection for a share, the same uuid is turned away exactly when some share was registered on the way. */
  lemma RejectionBlocksUuid(r: State, uuid: string, specs: seq<ShareSpec>, again: seq<ShareSpec>)
    requires Inv(r) && GreetClient(r, uuid, specs).1.DuplicateShare?
    ensures var r' := GreetClient(r, uuid, specs).0;
            GreetClient(r', uuid, again).1 == DuplicateClient <==> specs != [] && !Held(r, specs[0].id)
  {
    hide Inv, AddShares, NewShares, OtherIds, Held;
    var n := HelloRegistersPrefix(r, uuid, specs);
    assert n > 0 <==> specs != [] && !Held(r, specs[0].id);
  }

  // ---- The server as the program updates it in place ----------------------------------

  /** For each share, the workers under the ids they greeted with. */
  type Entries = map<nat, map<Int32, nat>>

  function LiveOnly(xs: seq<nat>, live: set<nat>): seq<nat> {
    if xs == [] then []
    else LiveOnly(xs[..|xs| - 1], live) + if xs[|xs| - 1] in live then [xs[|xs| - 1]] else []
  }

  /** Increasing positions in a list, of what s holds; and none of a live one is missing. */
  ghost predicate PicksLive(xs: seq<nat>, live: set<nat>, s: seq<nat>, at: seq<nat>) {
    && |at| == |s| && (forall k :: 0 <= k < |at| ==> at[k] < |xs| && s[k] == xs[at[k]])
    && (forall j, k :: 0 <= j < k < |at| ==> at[j] < at[k])
    && (forall i :: 0 <= i < |xs| ==> (i in at <==> xs[i] in live))
  }

  lemma PicksOneMore(xs: seq<nat>, live: set<nat>, x: nat, s: seq<nat>, at: seq<nat>)
    requires PicksLive(xs, live, s, at)
    ensures x in live ==> PicksLive(xs + [x], live, s + [x], at + [|xs|])
    ensures x !in live ==> PicksLive(xs + [x], live, s, at)
  {
    assert |xs| !in at;
    forall i: nat ensures i in at + [|xs|] <==> i in at || i == |xs| {
    }
  }

  /** The live ones of a list, in order: none is left out, and nothing else is there. */
  lemma {:induction false} LiveOnlyInOrder(xs: seq<nat>, live: set<nat>) returns (at: seq<nat>)
    ensures PicksLive(xs, live, LiveOnly(xs, live), at)
  {
    if xs == [] {
      at := [];
    } else {
      var n := |xs| - 1;
      at := LiveOnlyInOrder(xs[..n], live);
      LiveOnlyStep(xs, live);
      PicksOneMore(xs[..n], live, xs[n], LiveOnly(xs[..n], live), at);
      assert xs[..n] + [xs[n]] == xs;
      hide LiveOnly, PicksLive;
      if xs[n] in live {
        at := at + [n];
      }
    }
  }

  lemma LiveOnlyStep(xs: seq<nat>, live: set<nat>)
    requires xs != []
    ensures var n := |xs| - 1; LiveOnly(xs, live) == LiveOnly(xs[..n], live) + if xs[n] in live then [xs[n]] else []
  {
  }

  lemma LiveOnlyHas(xs: seq<nat>, live: set<nat>)
    ensures forall y: nat :: y in LiveOnly(xs, live) <==> y in xs && y in live
  {
    var at := LiveOnlyInOrder(xs, live);
    hide LiveOnly;
    forall y: nat | y in xs && y in live ensures y in LiveOnly(xs, live) {
      var i :| 0 <= i < |xs| && xs[i] == y;
      var k :| 0 <= k < |at| && at[k] == i;
      assert LiveOnly(xs, live)[k] == y;
    }
    forall y: nat | y in LiveOnly(xs, live) ensures y in xs && y in live {
      var k :| 0 <= k < |at| && LiveOnly(xs, live)[k] == y;
      assert at[k] in at;
    }
  }

  /** The entries of live workers, and w under its id unless a live worker has that. */
  function WithEntry(m: map<Int32, nat>, live: set<nat>, w: nat, id: Int32): map<Int32, nat> {
    var kept := map i | i in m && m[i] in live :: m[i];
    if id in kept then kept else kept[id := w]
  }

  function MapOf(entries: Entries, sh: nat): map<Int32, nat> { if sh in entries then entries[sh] else map[] }

  /** The live shares that a controller's map refers to under some of its ids. */
  function LiveOf(m: map<string, nat>, ids: set<string>, live: set<nat>): set<nat> {
    set id | id in ids && id in m && m[id] in live :: m[id]
  }

  lemma Regrouped(a: set<nat>, b: set<nat>, c: set<nat>, d: set<nat>, e: set<nat>)
    ensures a + b + c + d + e == a + (b + d) + (c + e)
  {
  }

  lemma LiveOfMore(m: map<string, nat>, todo: set<string>, id: string, live: set<nat>)
    requires todo <= m.Keys && id in todo
    ensures LiveOf(m, m.Keys - (todo - {id}), live) ==
            LiveOf(m, m.Keys - todo, live) + if m[id] in live then {m[id]} else {}
  {
  }

  /** The live workers entered in the maps of some shares. */
  ghost function WorkersIn(entries: Entries, live: set<nat>, shs: set<nat>): set<nat> {
    set sh, id | sh in shs && sh in entries && id in entries[sh] && entries[sh][id] in live :: entries[sh][id]
  }

  ghost predicate InMap(m: map<Int32, nat>, w: nat) { exists id :: id in m && m[id] == w }

  ghost predicate InMaps(entries: Entries, shs: set<nat>, w: nat) {
    exists sh :: sh in shs && InMap(MapOf(entries, sh), w)
  }

  /** In other words: those that the map of one of the shares refers to under some id, and that live. */
  lemma WorkersInMaps(entries: Entries, live: set<nat>, shs: set<nat>)
    ensures forall w: nat :: w in WorkersIn(entries, live, shs) <==> w in live && InMaps(entries, shs, w)
    ensures forall sh <- shs, id <- MapOf(entries, sh) ::
              MapOf(entries, sh)[id] in live ==> MapOf(entries, sh)[id] in WorkersIn(entries, live, shs)
  {
    forall w: nat | w in WorkersIn(entries, live, shs) ensures w in live && InMaps(entries, shs, w) {
      var sh, id :| sh in shs && sh in entries && id in entries[sh] && entries[sh][id] == w;
      assert id in MapOf(entries, sh) && MapOf(entries, sh)[id] == w;
    }
  }

  lemma WorkersInBoth(entries: Entries, live: set<nat>, a: set<nat>, b: set<nat>)
    ensures WorkersIn(entries, live, a + b) == WorkersIn(entries, live, a) + WorkersIn(entries, live, b)
    ensures a <= b ==> WorkersIn(entries, live, a) <= WorkersIn(entries, live, b)
  {
  }

  /** Everything of a uuid: its live controller, the live shares of that, and the workers entered there. */
  ghost predicate Reached(r: State, entries: Entries, stopped: set<nat>, uuid: string) {
    && (forall c <- r.controllers :: r.controllers[c].uuid == uuid ==> c in stopped)
    && forall sh <- r.shares ::
         r.shares[sh].ctrl in r.controllers && r.controllers[r.shares[sh].ctrl].uuid == uuid ==>
           sh in stopped && WorkersIn(entries, r.workers.Keys, {sh}) <= stopped
  }

  lemma ReachedMore(r: State, entries: Entries, before: set<nat>, stopped: set<nat>)
    requires before <= stopped
    ensures forall u: string :: Reached(r, entries, before, u) ==> Reached(r, entries, stopped, u)
  {
    hide WorkersIn;
  }

  lemma NoneReached(r: State, entries: Entries, stopped: set<nat>, uuid: string)
    requires Inv(r) && uuid in r.ctrls && r.ctrls[uuid] !in r.controllers
    ensures Reached(r, entries, stopped, uuid)
  {
    InTheirPlaces(r);
    hide Inv, WorkersIn;
  }

  lemma OneReached(r: State, entries: Entries, stopped: set<nat>, uuid: string)
    requires Inv(r) && uuid in r.ctrls && r.ctrls[uuid] in r.controllers && r.ctrls[uuid] in stopped
    requires var m := r.controllers[r.ctrls[uuid]].shares;
             var mine := LiveOf(m, m.Keys, r.shares.Keys);
             mine <= stopped && WorkersIn(entries, r.workers.Keys, mine) <= stopped
    ensures Reached(r, entries, stopped, uuid)
  {
    InTheirPlaces(r);
    var m := r.controllers[r.ctrls[uuid]].shares;
    var mine := LiveOf(m, m.Keys, r.shares.Keys);
    hide Inv, WorkersIn;
    var live := r.workers.Keys;
    forall sh | sh in mine ensures WorkersIn(entries, live, {sh}) <= WorkersIn(entries, live, mine) {
      WorkersInBoth(entries, live, {sh}, mine);
    }
  }

  /** With every uuid reached, everything alive and entered is. */
  lemma AllReached(r: State, entries: Entries, stopped: set<nat>)
    requires Inv(r) && forall u <- r.ctrls :: Reached(r, entries, stopped, u)
    ensures r.controllers.Keys + r.shares.Keys + WorkersIn(entries, r.workers.Keys, r.shares.Keys) <= stopped
  {
    InTheirPlaces(r);
    hide Inv;
    forall sh | sh in r.shares ensures sh in stopped && WorkersIn(entries, r.workers.Keys, {sh}) <= stopped {
      assert Reached(r, entries, stopped, r.controllers[r.shares[sh].ctrl].uuid);
    }
    forall w | w in WorkersIn(entries, r.workers.Keys, r.shares.Keys) ensures w in stopped {
      var sh, id :| sh in r.shares && sh in entries && id in entries[sh] && entries[sh][id] == w && w in r.workers;
      assert w in WorkersIn(entries, r.workers.Keys, {sh});
    }
  }

  /** Every live controller is found by its uuid, and every live share in the map of its controller. */
  lemma InTheirPlaces(r: State)
    requires Inv(r)
    ensures forall c <- r.controllers :: r.controllers[c].uuid in r.ctrls && r.ctrls[r.controllers[c].uuid] == c
    ensures forall sh <- r.shares ::
              var s := r.shares[sh];
              s.ctrl in r.controllers && s.id in r.controllers[s.ctrl].shares &&
                r.controllers[s.ctrl].shares[s.id] == sh
  {
    forall c | c in r.controllers ensures CtrlInPlace(r, c) {
    }
    forall sh | sh in r.shares ensures ShareInPlace(r, sh) {
    }
  }

  lemma NextIsNew(r: State)
    requires Inv(r)
    ensures r.next !in r.workers && r.next !in r.shares && r.next !in r.controllers
  {
  }

  class Server {
    var ctrls: map<string, nat>
    var tcpShares: map<string, nat>
    var controllers: map<nat, Controller>
    var shares: map<nat, Share>
    var workers: map<nat, nat>
    var next: nat
    /** The objects whose stopping or closing flag is set. */
    var stopping: set<nat>
    /** For each share, the workers entered under the ids they greeted with; entries may be dead. */
    var entries: Entries
    /** The sockets whose greeting was not handled yet, and the list that refers weakly to them. */
    var waiting: set<nat>
    var sockets: seq<nat>

    /** What greetings of clients leave alone. */
    ghost function Rest(): (set<nat>, Entries, set<nat>, seq<nat>)
      reads this
    {
      (stopping, entries, waiting, sockets)
    }

    ghost function View(): State
      reads this
    {
      State(ctrls, tcpShares, controllers, shares, workers, next)
    }

    ghost predicate Valid()
      reads this
    {
      Inv(View())
    }

    constructor ()
      ensures Valid() && View() == NO_CLIENTS && Rest() == ({}, map[], {}, [])
    {
      ctrls, tcpShares, controllers, shares, workers, next := map[], map[], map[], map[], map[], 0;
      stopping, entries, waiting, sockets := {}, map[], {}, [];
    }

    method HandleClientHello(uuid: string, specs: seq<ShareSpec>) returns (o: Outcome)
      requires Valid()
      modifies this
      ensures Valid() && (View(), o) == GreetClient(old(View()), uuid, specs) && Rest() == old(Rest())
    {
      hide Inv, AddShares, Known, Greeted;
      GreetKept(View(), uuid, specs);
      var c, known := EnterController(uuid);
      if known {
        return DuplicateClient;
      }
      var n := AddTcpShares(c, specs);
      if n < |specs| {
        if n == 0 {
          controllers := controllers - {c};
        }
        return DuplicateShare(specs[n].id);
      }
      o := Registered;
    }

    /** A new controller, which enters the registry unless its uuid is that of a live one. */
    method EnterController(uuid: string) returns (c: nat, known: bool)
      modifies this
      ensures known == Known(old(View()), uuid) && c == old(next) && Rest() == old(Rest())
      ensures known ==> View() == old(View()).(next := c + 1)
      ensures !known ==> View() == Greeted(old(View()), uuid) && c in controllers
    {
      c := next;
      next := next + 1;
      if uuid !in ctrls || ctrls[uuid] !in controllers {
        ctrls := ctrls[uuid := c];
      } else {
        return c, true;
      }
      controllers := controllers[c := Controller(uuid, map[])];
      known := false;
    }

    /** The loop over the shares of a greeting, up to the first whose id is held. */
    method AddTcpShares(c: nat, specs: seq<ShareSpec>) returns (n: nat)
      requires c in controllers
      modifies this
      ensures (View(), n) == AddShares(old(View()), c, specs) && Rest() == old(Rest())
    {
      hide AddShare, AddShares;
      n := 0;
      assert specs[0..] == specs;
      while n < |specs|
        invariant n <= |specs| && c in controllers && Rest() == old(Rest())
        invariant AddShares(old(View()), c, specs).0 == AddShares(View(), c, specs[n..]).0
        invariant AddShares(old(View()), c, specs).1 == n + AddShares(View(), c, specs[n..]).1
      {
        ghost var before, rest := View(), specs[n..];
        assert rest[0] == specs[n] && rest[1..] == specs[n + 1..];
        var id := specs[n].id;
        if id in tcpShares && tcpShares[id] in shares {
          NoneMore(before, c, rest);
          return;
        }
        AddSharesOnce(before, c, rest);
        var sh := AddTcpShare(c, id);
        tcpShares := tcpShares[id := sh];
        AddShareFields(before, c, id);
        n := n + 1;
      }
      NoneMore(View(), c, specs[n..]);
    }

    method AddTcpShare(c: nat, id: string) returns (sh: nat)
      requires c in controllers
      modifies `controllers, `shares, `next
      ensures sh == old(next) && next == sh + 1 && shares == old(shares)[sh := Share(id, c)]
      ensures controllers == old(controllers)[c := Entered(old(controllers[c]), id, sh)]
      ensures var m := old(controllers[c]).shares; controllers[c].shares == if id in m then m else m[id := sh]
    {
      sh := next;
      next := next + 1;
      shares := shares[sh := Share(id, c)];
      controllers := controllers[c := Entered(controllers[c], id, sh)];
    }

    method HandleWorkerHello(id: string) returns (o: WorkerOutcome)
      requires Valid()
      modifies this
      ensures Valid() && (View(), o) == GreetWorker(old(View()), id) && Rest() == old(Rest())
      ensures o.UnknownShare? <==> id !in tcpShares
      ensures o.ShareClosed? <==> id in tcpShares && tcpShares[id] !in shares
      ensures workers == if o.WorkerAdded? then old(workers)[o.w := tcpShares[id]] else old(workers)
      ensures o.WorkerAdded? ==> o.w !in old(workers)
    {
      hide Inv;
      GreetWorkerKept(View(), id);
      NextIsNew(View());
      if id !in tcpShares {
        return UnknownShare;
      }
      if tcpShares[id] !in shares {
        return ShareClosed;
      }
      o := WorkerAdded(next);
      workers := workers[next := tcpShares[id]];
      next := next + 1;
    }

    /** The last reference to an object is dropped. */
    method Release(x: nat)
      requires Valid() && CanDie(View(), x)
      modifies this
      ensures Valid() && View() == Died(old(View()), x) && Rest() == old(Rest())
    {
      hide Inv, CanDie;
      DiedKept(View(), x);
      workers, shares, controllers := workers - {x}, shares - {x}, controllers - {x};
    }

    /** A new socket: the dead ones leave the list, and it comes last. */
    method HandleSocket() returns (x: nat)
      requires Valid()
      modifies this
      ensures Valid() && View() == old(View()).(next := x + 1) && x == old(next)
      ensures Rest() == (old(stopping), old(entries), old(waiting) + {x}, LiveOnly(old(sockets), old(waiting)) + [x])
      ensures forall y: nat :: y in sockets <==> y == x || (y in old(sockets) && y in old(waiting))
    {
      hide Inv;
      WorkersSame(View());
      assert View().(workers := View().workers, next := next + 1) == View().(next := next + 1);
      x := next;
      next := next + 1;
      var kept: seq<nat> := [];
      for i := 0 to |sockets|
        invariant kept == LiveOnly(sockets[..i], waiting)
      {
        assert sockets[..i + 1] == sockets[..i] + [sockets[i]];
        if sockets[i] in waiting {
          kept := kept + [sockets[i]];
        }
      }
      assert sockets[..|sockets|] == sockets;
      LiveOnlyHas(sockets, waiting);
      waiting := waiting + {x};
      sockets := kept + [x];
    }

    /** The greeting of a socket was handled or refused, or did not come in time. */
    method SocketGone(x: nat)
      modifies `waiting
      ensures waiting == old(waiting) - {x}
    {
      waiting := waiting - {x};
    }

    function EntriesOf(sh: nat): map<Int32, nat>
      reads `entries
    {
      MapOf(entries, sh)
    }

    /** Drops the entries of dead workers, one at a time. */
    method CleanupWorkers(m: map<Int32, nat>) returns (kept: map<Int32, nat>)
      ensures forall i :: i in kept <==> i in m && m[i] in workers
      ensures forall i <- kept :: kept[i] == m[i]
    {
      kept := m;
      var todo := m.Keys;
      while todo != {}
        invariant todo <= kept.Keys <= m.Keys && forall i <- kept :: kept[i] == m[i]
        invariant forall i <- m :: i in kept <==> i in todo || m[i] in workers
        decreases |todo|
      {
        var i :| i in todo;
        todo := todo - {i};
        if kept[i] !in workers {
          kept := kept - {i};
        }
      }
    }

    /**
     The coroutine that enters a worker.  Live workers keep their entries, also one that has
     the same id; dead ones lose theirs; and no other share is touched.
     */
    method GotWorker(w: nat, id: Int32)
      modifies `entries
      ensures w !in workers ==> entries == old(entries)
      ensures w in workers ==>
                && entries == old(entries)[workers[w] := EntriesOf(workers[w])]
                && EntriesOf(workers[w]) == WithEntry(old(EntriesOf(workers[w])), workers.Keys, w, id)
      ensures w in workers ==>
                var m, m' := old(EntriesOf(workers[w])), EntriesOf(workers[w]);
                && (forall i <- m :: m[i] in workers ==> i in m' && m'[i] == m[i])
                && (forall i <- m' :: m'[i] in workers && (i == id || (i in m && m'[i] == m[i])))
                && id in m' && (m'[id] == w || (id in m && m'[id] == m[id] && m[id] in workers))
    {
      if w !in workers {
        return;
      }
      var m := CleanupWorkers(EntriesOf(workers[w]));
      assert m == map i | i in EntriesOf(workers[w]) && EntriesOf(workers[w])[i] in workers :: EntriesOf(workers[w])[i];
      if id !in m {
        m := m[id := w];
      }
      entries := entries[workers[w] := m];
    }

    /** The live workers entered in the maps of some shares. */
    ghost function Below(shs: set<nat>): set<nat>
      reads `entries, `workers
    {
      WorkersIn(entries, workers.Keys, shs)
    }

    /** Stopping a share reaches the live workers entered in its map. */
    method StopShare(sh: nat)
      modifies `stopping
      ensures stopping == old(stopping) + {sh} + Below({sh})
      ensures forall w: nat :: w in stopping <==>
                || w in old(stopping) || w == sh
                || (w in workers && InMap(EntriesOf(sh), w))
    {
      stopping := stopping + {sh};
      var m := EntriesOf(sh);
      var todo := m.Keys;
      while todo != {}
        invariant todo <= m.Keys
        invariant stopping == old(stopping) + {sh} + (set id | id in m && id !in todo && m[id] in workers :: m[id])
        decreases |todo|
      {
        var id :| id in todo;
        todo := todo - {id};
        if m[id] in workers {
          stopping := stopping + {m[id]};
        }
      }
      assert Below({sh}) == set id | id in m && m[id] in workers :: m[id];
      WorkersInMaps(entries, workers.Keys, {sh});
    }

    /** Stopping a controller reaches the live shares in its own map, and the workers entered there. */
    method StopController(c: nat)
      requires c in controllers
      modifies `stopping
      ensures var mine := LiveOf(controllers[c].shares, controllers[c].shares.Keys, shares.Keys);
              stopping == old(stopping) + {c} + mine + Below(mine)
    {
      stopping := stopping + {c};
      var mine := controllers[c].shares;
      var todo := mine.Keys;
      ghost var was, done: set<nat> := stopping, {};
      assert LiveOf(mine, mine.Keys - todo, shares.Keys) == {} && Below({}) == {};
      hide *;
      while todo != {}
        invariant todo <= mine.Keys && done == LiveOf(mine, mine.Keys - todo, shares.Keys)
        invariant stopping == was + done + Below(done)
        decreases |todo|
      {
        var id :| id in todo;
        LiveOfMore(mine, todo, id, shares.Keys);
        todo := todo - {id};
        if mine[id] in shares {
          StopAnother(was, done, mine[id]);
          done := done + {mine[id]};
        }
      }
      assert mine.Keys - todo == mine.Keys;
    }

    method StopAnother(ghost was: set<nat>, ghost done: set<nat>, sh: nat)
      requires stopping == was + done + Below(done)
      modifies `stopping
      ensures stopping == was + (done + {sh}) + Below(done + {sh})
    {
      hide *;
      StopShare(sh);
      BothBelow(done, {sh});
      Regrouped(was, done, Below(done), {sh}, Below({sh}));
    }

    lemma BothBelow(a: set<nat>, b: set<nat>)
      ensures Below(a + b) == Below(a) + Below(b)
    {
      WorkersInBoth(entries, workers.Keys, a, b);
      hide WorkersIn;
    }

    /**
     Stopping the server reaches exactly the live controllers, their live shares, the live
     workers entered there, and the live sockets in the list.
     */
    method TryStop()
      requires Valid()
      modifies `stopping
      ensures stopping == old(stopping) + controllers.Keys + shares.Keys + Below(shares.Keys) +
                          set x | x in sockets && x in waiting
      ensures forall sh <- shares, id <- EntriesOf(sh) ::
                EntriesOf(sh)[id] in workers ==> EntriesOf(sh)[id] in stopping
    {
      hide Inv, WorkersIn;
      WorkersInMaps(entries, workers.Keys, shares.Keys);
      StopControllers();
      ghost var stopped := stopping;
      for i := 0 to |sockets|
        invariant stopping == stopped + set x | x in sockets[..i] && x in waiting
      {
        if sockets[i] in waiting {
          stopping := stopping + {sockets[i]};
        }
      }
    }

    method StopControllers()
      requires Valid()
      modifies `stopping
      ensures stopping == old(stopping) + controllers.Keys + shares.Keys + Below(shares.Keys)
    {
      ghost var r, was := View(), stopping;
      hide Inv, WorkersIn, Reached;
      var todo := ctrls.Keys;
      while todo != {}
        invariant todo <= ctrls.Keys && Valid()
        invariant was <= stopping <= was + controllers.Keys + shares.Keys + Below(shares.Keys)
        invariant forall u <- ctrls :: u !in todo ==> Reached(r, entries, stopping, u)
        decreases |todo|
      {
        var uuid :| uuid in todo;
        todo := todo - {uuid};
        ghost var before := stopping;
        StopUuid(uuid);
        ReachedMore(r, entries, before, stopping);
      }
      AllReached(r, entries, stopping);
    }

    method StopUuid(uuid: string)
      requires Valid() && uuid in ctrls
      modifies `stopping
      ensures Valid() && Reached(View(), entries, stopping, uuid)
      ensures old(stopping) <= stopping <= old(stopping) + controllers.Keys + shares.Keys + Below(shares.Keys)
    {
      ghost var r, was := View(), stopping;
      hide Inv, WorkersIn, Reached;
      if ctrls[uuid] in controllers {
        var c := ctrls[uuid];
        StopController(c);
        ghost var mine := LiveOf(controllers[c].shares, controllers[c].shares.Keys, shares.Keys);
        WorkersInBoth(entries, workers.Keys, mine, shares.Keys);
        OneReached(r, entries, stopping, uuid);
      } else {
        NoneReached(r, entries, stopping, uuid);
      }
    }
  }

  lemma AddShareFields(r: State, c: nat, id: string)
    requires c in r.controllers
    ensures AddShare(r, c, id) ==
            State(r.ctrls, r.tcpShares[id := r.next], r.controllers[c := Entered(r.controllers[c], id, r.next)],
                  r.shares[r.next := Share(id, c)], r.workers, r.next + 1)
  {
  }
}

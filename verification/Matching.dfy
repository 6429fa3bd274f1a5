/**
 Takers meet offers through a rendezvous queue: at the server visitors take workers,
 at the client the rounds of the accept loop take tunnel sockets.  A taker that gets
 an offer that is gone by then waits again.
 */
module Matching {
  import opened Seqs
  import opened WaitQueue

  datatype Party = Taker(id: nat) | Giver(id: nat)

  /**
   `gone` are the offers whose owner has died, `resumed` the completed waits whose
   coroutine went on, `skipped` those of them whose offer was gone at that moment, and
   `taken` maps a taker to the completed wait that satisfied it.
   */
  datatype Match = Match(
    q: State<Party, nat>, gone: set<nat>, resumed: set<nat>, skipped: set<nat>, taken: map<nat, nat>)

  const NO_MATCH := Match(Empty<Party, nat>(), {}, {}, {}, map[])

  datatype Move =
    | Want(v: nat)
    | Offer(w: nat)
    | Die(w: nat)
    | RunPosted(i: nat)
    | Shut
    | Resume(k: nat)

  /** Every taker asks for the first time once, and every offer is made once. */
  predicate CanMove(m: Match, e: Move) {
    match e
    case Want(v) => Taker(v) !in m.q.calledWaits
    case Offer(w) => w !in Seconds(m.q.calledProvides)
    case RunPosted(i) => i < |m.q.posted|
    case Resume(k) => k < |m.q.got| && k < |m.q.values| && k !in m.resumed
    case _ => true
  }

  function Moved(m: Match, e: Move): Match
    requires CanMove(m, e)
  {
    match e
    case Want(v) => m.(q := PostWait(m.q, Taker(v)))
    case Offer(w) => m.(q := PostProvide(m.q, Giver(w), w))
    case Die(w) => m.(gone := m.gone + {w})
    case RunPosted(i) => m.(q := RunTask(m.q, i))
    case Shut => m.(q := Close(m.q))
    case Resume(k) =>
      if m.q.values[k] in m.gone then
        m.(q := PostWait(m.q, m.q.got[k]), resumed := m.resumed + {k}, skipped := m.skipped + {k})
      else m.(taken := m.taken[m.q.got[k].id := k], resumed := m.resumed + {k})
  }

  ghost predicate IsMatchRun(m: Match, es: seq<Move>)
    decreases |es|
  {
    es == [] || (CanMove(m, es[0]) && IsMatchRun(Moved(m, es[0]), es[1..]))
  }

  ghost function MatchAfter(m: Match, es: seq<Move>): Match
    requires IsMatchRun(m, es)
    decreases |es|
  {
    if es == [] then m else MatchAfter(Moved(m, es[0]), es[1..])
  }

  /** How many of the first n completed waits were resumed by taker v. */
  function Turns(got: seq<Party>, resumed: set<nat>, v: nat, n: nat): nat
    requires n <= |got|
  {
    if n == 0 then 0
    else Turns(got, resumed, v, n - 1) + if n - 1 in resumed && got[n - 1] == Taker(v) then 1 else 0
  }

  predicate Seeking(m: Match, v: nat) { Taker(v) in m.q.calledWaits && v !in m.taken }

  /** Every wait of a taker but its latest one was resumed; the latest one too, if it got what it wanted. */
  ghost predicate TurnsCounted(m: Match, v: nat) {
    multiset(m.q.calledWaits)[Taker(v)] == Turns(m.q.got, m.resumed, v, |m.q.got|) + if Seeking(m, v) then 1 else 0
  }

  ghost predicate OffersOnce(q: State<Party, nat>) {
    && (forall p <- q.calledProvides :: p.0 == Giver(p.1))
    && (forall i, j :: 0 <= i < j < |q.calledProvides| ==> q.calledProvides[i] != q.calledProvides[j])
  }

  ghost predicate TakenAre(m: Match) {
    && (forall k <- m.resumed :: k < |m.q.got|)
    && (forall v <- m.taken ::
          m.taken[v] in m.resumed && m.taken[v] < |m.q.got| && m.q.got[m.taken[v]] == Taker(v))
    && (forall k <- m.resumed :: k < |m.q.values| &&
          (m.q.values[k] in m.gone || (m.q.got[k].Taker? && m.q.got[k].id in m.taken && m.taken[m.q.got[k].id] == k)))
  }

  /** Completions of one taker are resumed in order, and it takes the first one that it does not skip. */
  ghost predicate InTurn(m: Match) {
    && (forall i, j :: 0 <= i < j < |m.q.got| && m.q.got[i] == m.q.got[j] ==> i in m.resumed)
    && (forall v <- m.taken, j :: m.taken[v] < j < |m.q.got| ==> m.q.got[j] != Taker(v))
    && (forall k <- m.resumed :: k < |m.q.got| && m.q.got[k].Taker? &&
          (k in m.skipped <==> !(m.q.got[k].id in m.taken && m.taken[m.q.got[k].id] == k)))
    && (forall k <- m.skipped :: k in m.resumed && k < |m.q.values| && m.q.values[k] in m.gone)
    && (forall v <- m.taken :: m.taken[v] in m.resumed)
  }

  ghost predicate QueueInv(q: State<Party, nat>) {
    && Rendezvous(q) && Drained(q)
    && (forall h: Party :: WaitAccounted(q, h))
    && (forall p: (Party, nat) :: ProvideAccounted(q, p))
    && OffersOnce(q)
    && (forall h <- q.calledWaits :: h.Taker?)
  }

  ghost predicate MatchInv(m: Match) {
    QueueInv(m.q) && TakenAre(m) && forall v: nat :: TurnsCounted(m, v)
  }

  // ---- The queue ---------------------------------------------------------------

  lemma QueueKept(q: State<Party, nat>, e: Event<Party, nat>)
    requires QueueInv(q) && Enabled(q, e)
    requires e.CallWait? ==> e.h.Taker?
    requires e.CallProvide? ==> e.h == Giver(e.r) && e.r !in Seconds(q.calledProvides)
    ensures QueueInv(Apply(q, e))
  {
    ApplyMeets(q, e);
    forall h: Party ensures WaitAccounted(Apply(q, e), h) {
      ApplyAccountsWait(q, e, h);
    }
    forall p: (Party, nat) ensures ProvideAccounted(Apply(q, e), p) {
      ApplyAccountsProvide(q, e, p);
    }
    hide Rendezvous, Drained, WaitAccounted, ProvideAccounted;
    CallsKept(q, e);
  }

  lemma CallsKept(q: State<Party, nat>, e: Event<Party, nat>)
    requires OffersOnce(q) && (forall h <- q.calledWaits :: h.Taker?) && Enabled(q, e)
    requires e.CallWait? ==> e.h.Taker?
    requires e.CallProvide? ==> e.h == Giver(e.r) && e.r !in Seconds(q.calledProvides)
    ensures OffersOnce(Apply(q, e)) && (forall h <- Apply(q, e).calledWaits :: h.Taker?)
  {
    if e.Run? {
      RunMakesNoCall(q, e.i);
    } else if e.CallProvide? {
      forall i | 0 <= i < |q.calledProvides| ensures q.calledProvides[i] != (e.h, e.r) {
        assert Seconds(q.calledProvides)[i] in Seconds(q.calledProvides);
      }
    }
  }

  /** Running a task makes no call, and takes no completion back. */
  lemma RunMakesNoCall(q: State<Party, nat>, i: nat)
    requires i < |q.posted|
    ensures var t := RunTask(q, i);
            && t.calledWaits == q.calledWaits && t.calledProvides == q.calledProvides
            && q.got <= t.got && q.values <= t.values
  {
  }

  /** A value handed over is an offer, and each offer is handed over once. */
  lemma HandedOverOnce(q: State<Party, nat>)
    requires QueueInv(q)
    ensures |q.values| == |q.got| == |q.served|
    ensures forall k :: 0 <= k < |q.values| ==> q.served[k] == (Giver(q.values[k]), q.values[k])
    ensures forall i, j :: 0 <= i < j < |q.values| ==> q.values[i] != q.values[j]
  {
    forall k | 0 <= k < |q.values| ensures q.served[k] == (Giver(q.values[k]), q.values[k]) {
      CalledIfServed(q, k);
    }
    forall i, j | 0 <= i < j < |q.values| ensures q.values[i] != q.values[j] {
      OnceCounts(q.calledProvides, q.served[i]);
      assert ProvideAccounted(q, q.served[i]);
      if q.values[i] == q.values[j] {
        TwiceCounts(q.served, i, j);
      }
    }
  }

  lemma CalledIfServed(q: State<Party, nat>, k: nat)
    requires QueueInv(q) && k < |q.served|
    ensures q.served[k] in q.calledProvides
  {
    assert q.served[k] in multiset(q.served);
    assert ProvideAccounted(q, q.served[k]);
    assert q.served[k] in multiset(q.calledProvides);
  }

  lemma TwiceCounts<T>(s: seq<T>, i: nat, j: nat)
    requires i < j < |s| && s[i] == s[j]
    ensures multiset(s)[s[i]] >= 2
  {
    assert s == s[..j] + [s[j]] + s[j + 1..];
    assert s[i] == s[..j][i] && s[i] in multiset(s[..j]);
  }

  lemma {:induction false} OnceCounts<T>(s: seq<T>, x: T)
    requires forall i, j :: 0 <= i < j < |s| ==> s[i] != s[j]
    ensures multiset(s)[x] <= 1
  {
    if s != [] {
      assert s == [s[0]] + s[1..];
      OnceCounts(s[1..], x);
      assert x == s[0] ==> x !in s[1..] && x !in multiset(s[1..]);
    }
  }

  // ---- Taking turns --------------------------------------------------------------

  lemma {:induction false} TurnsAppend(got: seq<Party>, more: seq<Party>, resumed: set<nat>, v: nat, n: nat)
    requires n <= |got| && got <= more
    ensures Turns(more, resumed, v, n) == Turns(got, resumed, v, n)
  {
    if n > 0 {
      TurnsAppend(got, more, resumed, v, n - 1);
    }
  }

  lemma {:induction false} TurnsBeyond(got: seq<Party>, resumed: set<nat>, v: nat, n: nat, n': nat)
    requires n <= n' <= |got| && forall k <- resumed :: k < n
    ensures Turns(got, resumed, v, n') == Turns(got, resumed, v, n)
    decreases n'
  {
    if n < n' {
      TurnsBeyond(got, resumed, v, n, n' - 1);
    }
  }

  lemma {:induction false} TurnsResume(got: seq<Party>, resumed: set<nat>, k: nat, v: nat, n: nat)
    requires k < |got| && n <= |got| && k !in resumed
    ensures Turns(got, resumed + {k}, v, n) == Turns(got, resumed, v, n) + if k < n && got[k] == Taker(v) then 1 else 0
  {
    if n > 0 {
      TurnsResume(got, resumed, k, v, n - 1);
    }
  }

  /**
   A taker was resumed at most as often as it got something, and less if a completion of it is
   still to be resumed.
   */
  lemma {:induction false} TurnsBounded(got: seq<Party>, resumed: set<nat>, v: nat, n: nat)
    requires n <= |got|
    ensures Turns(got, resumed, v, n) <= multiset(got[..n])[Taker(v)]
    ensures (exists k :: 0 <= k < n && k !in resumed && got[k] == Taker(v)) ==>
              Turns(got, resumed, v, n) < multiset(got[..n])[Taker(v)]
  {
    if n > 0 {
      TurnsBounded(got, resumed, v, n - 1);
      assert got[..n] == got[..n - 1] + [got[n - 1]];
    }
  }

  /** A completion still to be resumed belongs to a taker that is still seeking. */
  lemma UnresumedSeeks(m: Match, k: nat)
    requires MatchInv(m) && k < |m.q.got| && k !in m.resumed
    ensures m.q.got[k].Taker? && Seeking(m, m.q.got[k].id)
  {
    var h := m.q.got[k];
    hide Rendezvous, Drained, ProvideAccounted, OffersOnce, TakenAre;
    assert WaitAccounted(m.q, h);
    assert h in multiset(m.q.got) && h in multiset(m.q.calledWaits) && h in m.q.calledWaits;
    assert TurnsCounted(m, h.id);
    TurnsBounded(m.q.got, m.resumed, h.id, |m.q.got|);
    assert m.q.got[..|m.q.got|] == m.q.got;
  }

  // ---- Every move keeps the invariant --------------------------------------------

  lemma TurnsKept(m: Match, q: State<Party, nat>, v: nat)
    requires TurnsCounted(m, v) && (forall k <- m.resumed :: k < |m.q.got|)
    requires q.calledWaits == m.q.calledWaits && m.q.got <= q.got
    ensures TurnsCounted(m.(q := q), v)
  {
    TurnsAppend(m.q.got, q.got, m.resumed, v, |m.q.got|);
    TurnsBeyond(q.got, m.resumed, v, |m.q.got|, |q.got|);
  }

  /** The queue moved on without a call of wait(), or an owner died. */
  lemma Advanced(m: Match, q: State<Party, nat>, gone: set<nat>)
    requires MatchInv(m) && QueueInv(q) && m.gone <= gone
    requires q.calledWaits == m.q.calledWaits && m.q.got <= q.got && m.q.values <= q.values
    ensures MatchInv(m.(q := q, gone := gone))
  {
    hide QueueInv;
    var m' := m.(q := q, gone := gone);
    forall v: nat ensures TurnsCounted(m', v) {
      assert TurnsCounted(m, v);
      TurnsKept(m, q, v);
    }
  }

  lemma QuietMove(m: Match, e: Move)
    requires MatchInv(m) && CanMove(m, e) && (e.Offer? || e.RunPosted? || e.Shut? || e.Die?)
    ensures MatchInv(Moved(m, e))
  {
    var m' := Moved(m, e);
    assert QueueInv(m.q) && m' == m.(q := m'.q, gone := m'.gone);
    hide MatchInv, QueueInv, RunTask;
    match e {
      case Offer(w) => QueueKept(m.q, CallProvide(Giver(w), w));
      case RunPosted(i) =>
        QueueKept(m.q, Run(i));
        RunMakesNoCall(m.q, i);
      case Shut => QueueKept(m.q, CallClose);
      case Die(w) =>
    }
    Advanced(m, m'.q, m'.gone);
  }

  /** Whoever took something had asked for it. */
  lemma TakerHadAsked(m: Match, v: nat)
    requires MatchInv(m) && v in m.taken
    ensures Taker(v) in m.q.calledWaits
  {
    var h := Taker(v);
    assert m.q.got[m.taken[v]] == h && h in multiset(m.q.got);
    assert WaitAccounted(m.q, h);
    assert h in multiset(m.q.calledWaits);
  }

  lemma WantKept(m: Match, v: nat)
    requires MatchInv(m) && CanMove(m, Want(v))
    ensures MatchInv(Moved(m, Want(v)))
  {
    QueueKept(m.q, CallWait(Taker(v)));
    if v in m.taken {
      TakerHadAsked(m, v);
    }
    var m' := Moved(m, Want(v));
    hide QueueInv;
    assert Taker(v) !in multiset(m.q.calledWaits);
    forall u: nat ensures TurnsCounted(m', u) {
      assert TurnsCounted(m, u);
    }
  }

  /** The offer is gone: the taker waits again. */
  lemma SkipKept(m: Match, k: nat)
    requires MatchInv(m) && CanMove(m, Resume(k)) && m.q.values[k] in m.gone
    ensures MatchInv(m.(q := PostWait(m.q, m.q.got[k]), resumed := m.resumed + {k}, skipped := m.skipped + {k}))
  {
    UnresumedSeeks(m, k);
    var h := m.q.got[k];
    QueueKept(m.q, CallWait(h));
    var m' := m.(q := PostWait(m.q, h), resumed := m.resumed + {k}, skipped := m.skipped + {k});
    hide QueueInv;
    forall u: nat ensures TurnsCounted(m', u) {
      assert TurnsCounted(m, u);
      TurnsResume(m.q.got, m.resumed, k, u, |m.q.got|);
    }
  }

  lemma TakeKept(m: Match, k: nat)
    requires MatchInv(m) && CanMove(m, Resume(k))
    ensures m.q.got[k].Taker? && MatchInv(m.(taken := m.taken[m.q.got[k].id := k], resumed := m.resumed + {k}))
  {
    UnresumedSeeks(m, k);
    var m' := m.(taken := m.taken[m.q.got[k].id := k], resumed := m.resumed + {k});
    hide QueueInv;
    forall u: nat ensures TurnsCounted(m', u) {
      assert TurnsCounted(m, u);
      TurnsResume(m.q.got, m.resumed, k, u, |m.q.got|);
    }
  }

  lemma Resumed(m: Match, k: nat)
    requires MatchInv(m) && CanMove(m, Resume(k))
    ensures MatchInv(Moved(m, Resume(k)))
  {
    TakeKept(m, k);
    if m.q.values[k] in m.gone {
      SkipKept(m, k);
    }
    hide MatchInv;
  }

  lemma MoveKept(m: Match, e: Move)
    requires MatchInv(m) && CanMove(m, e)
    ensures MatchInv(Moved(m, e))
  {
    hide MatchInv, CanMove, Moved;
    match e
    case Want(v) => WantKept(m, v);
    case Resume(k) => Resumed(m, k);
    case _ => QuietMove(m, e);
  }

  lemma NoMatchInv()
    ensures MatchInv(NO_MATCH)
  {
  }

  lemma {:induction false} MatchRunKept(m: Match, es: seq<Move>)
    requires MatchInv(m) && IsMatchRun(m, es)
    ensures MatchInv(MatchAfter(m, es))
    decreases |es|
  {
    hide MatchInv, CanMove, Moved;
    if es != [] {
      MoveKept(m, es[0]);
      MatchRunKept(Moved(m, es[0]), es[1..]);
    }
  }

  // ---- In turn ---------------------------------------------------------------------

  /** A taker with a wait in the queue has been resumed with everything it got so far, and seeks. */
  lemma WaitingIsFresh(m: Match, h: Party)
    requires MatchInv(m) && multiset(m.q.posted)[WaitTask(h)] + multiset(m.q.q)[h] > 0
    ensures h.Taker? && h.id !in m.taken
    ensures forall i :: 0 <= i < |m.q.got| && m.q.got[i] == h ==> i in m.resumed
  {
    hide Rendezvous, Drained, ProvideAccounted, OffersOnce, TakenAre;
    assert WaitAccounted(m.q, h);
    assert h in multiset(m.q.calledWaits) && h in m.q.calledWaits;
    assert TurnsCounted(m, h.id);
    TurnsBounded(m.q.got, m.resumed, h.id, |m.q.got|);
    assert m.q.got[..|m.q.got|] == m.q.got;
  }

  /** A task gives something to at most one waiting party. */
  lemma RunGives(q: State<Party, nat>, i: nat)
    requires i < |q.posted|
    ensures var t := RunTask(q, i);
            || t.got == q.got
            || (t.got != [] && t.got[..|t.got| - 1] == q.got
                && (q.posted[i] == WaitTask(t.got[|t.got| - 1]) || (q.q != [] && q.q[0] == t.got[|t.got| - 1])))
  {
  }

  lemma MoreGot(m: Match, q: State<Party, nat>, h: Party)
    requires InTurn(m) && q.got == m.q.got + [h] && m.q.values <= q.values
    requires h.Taker? && h.id !in m.taken
    requires forall i :: 0 <= i < |m.q.got| && m.q.got[i] == h ==> i in m.resumed
    ensures InTurn(m.(q := q))
  {
    var n := |m.q.got|;
    assert |q.got| == n + 1 && q.got[n] == h && forall j :: 0 <= j < n ==> q.got[j] == m.q.got[j];
    assert forall v <- m.taken :: m.taken[v] < n;
    forall v, j | v in m.taken && m.taken[v] < j < |q.got| ensures q.got[j] != Taker(v) {
      if j < n {
        assert m.q.got[j] != Taker(v);
      }
    }
  }

  lemma SameGot(m: Match, q: State<Party, nat>)
    requires InTurn(m) && q.got == m.q.got && m.q.values <= q.values
    ensures InTurn(m.(q := q))
  {
  }

  lemma RunInTurn(m: Match, i: nat)
    requires MatchInv(m) && InTurn(m) && CanMove(m, RunPosted(i))
    ensures InTurn(Moved(m, RunPosted(i)))
  {
    var q' := RunTask(m.q, i);
    assert Moved(m, RunPosted(i)) == m.(q := q') && i < |m.q.posted|;
    hide MatchInv, InTurn, RunTask, CanMove, Moved;
    RunGives(m.q, i);
    RunMakesNoCall(m.q, i);
    if q'.got == m.q.got {
      SameGot(m, q');
    } else {
      var h := q'.got[|q'.got| - 1];
      assert q'.got == m.q.got + [h];
      assert m.q.posted[i] in multiset(m.q.posted);
      assert m.q.q != [] ==> m.q.q[0] in multiset(m.q.q);
      WaitingIsFresh(m, h);
      MoreGot(m, q', h);
    }
  }

  lemma SkipInTurn(m: Match, k: nat, q: State<Party, nat>)
    requires InTurn(m) && k < |m.q.got| && k < |m.q.values| && k !in m.resumed && m.q.values[k] in m.gone
    requires m.q.got[k].Taker? && m.q.got[k].id !in m.taken && q.got == m.q.got && q.values == m.q.values
    ensures InTurn(m.(q := q, resumed := m.resumed + {k}, skipped := m.skipped + {k}))
  {
  }

  lemma TakeInTurn(m: Match, k: nat)
    requires InTurn(m) && k < |m.q.got| && k !in m.resumed && m.q.got[k].Taker? && m.q.got[k].id !in m.taken
    ensures InTurn(m.(resumed := m.resumed + {k}, taken := m.taken[m.q.got[k].id := k]))
  {
    var m' := m.(resumed := m.resumed + {k}, taken := m.taken[m.q.got[k].id := k]);
    assert k !in m.skipped;
    forall v, j | v in m'.taken && m'.taken[v] < j < |m.q.got| ensures m.q.got[j] != Taker(v) {
      if v == m.q.got[k].id {
        assert m.q.got[k] == Taker(v);
      }
    }
  }

  lemma ResumeInTurn(m: Match, k: nat)
    requires MatchInv(m) && InTurn(m) && CanMove(m, Resume(k))
    ensures InTurn(Moved(m, Resume(k)))
  {
    UnresumedSeeks(m, k);
    assert m.q.got[k].id !in m.taken;
    hide MatchInv, InTurn;
    if m.q.values[k] in m.gone {
      SkipInTurn(m, k, PostWait(m.q, m.q.got[k]));
    } else {
      TakeInTurn(m, k);
    }
  }

  lemma MoveInTurn(m: Match, e: Move)
    requires MatchInv(m) && InTurn(m) && CanMove(m, e)
    ensures InTurn(Moved(m, e))
  {
    match e
    case RunPosted(i) =>
      hide *;
      RunInTurn(m, i);
    case Resume(k) =>
      hide *;
      ResumeInTurn(m, k);
    case _ => hide MatchInv;
  }

  lemma {:induction false} MatchRunInTurn(m: Match, es: seq<Move>)
    requires MatchInv(m) && InTurn(m) && IsMatchRun(m, es)
    ensures InTurn(MatchAfter(m, es))
    decreases |es|
  {
    hide MatchInv, InTurn, CanMove, Moved;
    if es != [] {
      MoveKept(m, es[0]);
      MoveInTurn(m, es[0]);
      MatchRunInTurn(Moved(m, es[0]), es[1..]);
    }
  }

  // ---- What the matching guarantees -------------------------------------------------

  /** The offer a taker ended up with. */
  function OfferOf(m: Match, v: nat): nat
    requires v in m.taken && m.taken[v] < |m.q.values|
  {
    m.q.values[m.taken[v]]
  }

  ghost predicate OneToOne(m: Match) {
    && (forall v <- m.taken :: m.taken[v] < |m.q.values|)
    && (forall v, u :: v in m.taken && u in m.taken && v != u ==> OfferOf(m, v) != OfferOf(m, u))
  }

  lemma TakenOnce(m: Match)
    requires MatchInv(m)
    ensures OneToOne(m)
    ensures forall v <- m.taken :: OfferOf(m, v) in Seconds(m.q.calledProvides)
  {
    HandedOverOnce(m.q);
    forall v | v in m.taken ensures OfferOf(m, v) in Seconds(m.q.calledProvides) {
      var k := m.taken[v];
      CalledIfServed(m.q, k);
      var i :| 0 <= i < |m.q.calledProvides| && m.q.calledProvides[i] == m.q.served[k];
      assert Seconds(m.q.calledProvides)[i] == OfferOf(m, v);
    }
    forall v, u | v in m.taken && u in m.taken && v != u ensures OfferOf(m, v) != OfferOf(m, u) {
      assert m.q.got[m.taken[v]] != m.q.got[m.taken[u]];
    }
  }

  /** In every run, whatever the order of tasks, deaths and resumptions, no two takers end up with the same offer. */
  lemma EachOfferOneTaker(es: seq<Move>)
    requires IsMatchRun(NO_MATCH, es)
    ensures OneToOne(MatchAfter(NO_MATCH, es))
  {
    NoMatchInv();
    hide MatchInv;
    MatchRunKept(NO_MATCH, es);
    TakenOnce(MatchAfter(NO_MATCH, es));
  }

  /**
   Dead offers are skipped in order.  In every run a taker that ended up with an offer took
   the last one it got; every one it got before was gone when it was resumed with it, and
   the one it took was not.
   */
  lemma TakesFirstLive(es: seq<Move>)
    requires IsMatchRun(NO_MATCH, es)
    ensures var m := MatchAfter(NO_MATCH, es);
            && |m.q.got| == |m.q.values|
            && (forall v <- m.taken, k :: 0 <= k < |m.q.got| && m.q.got[k] == Taker(v) ==>
                  && k <= m.taken[v] && k in m.resumed
                  && (k in m.skipped <==> k < m.taken[v])
                  && (k < m.taken[v] ==> m.q.values[k] in m.gone))
  {
    NoMatchInv();
    assert InTurn(NO_MATCH);
    hide MatchInv, InTurn;
    MatchRunKept(NO_MATCH, es);
    MatchRunInTurn(NO_MATCH, es);
    InTurnMeans(MatchAfter(NO_MATCH, es));
  }

  /** The offers that are gone are those whose owner died. */
  lemma {:induction false} GoneAreDead(m: Match, es: seq<Move>)
    requires IsMatchRun(m, es)
    ensures forall w: nat :: w in MatchAfter(m, es).gone <==> w in m.gone || Die(w) in es
    decreases |es|
  {
    if es != [] {
      assert forall w: nat :: w in Moved(m, es[0]).gone <==> w in m.gone || Die(w) == es[0];
      hide CanMove, Moved;
      GoneAreDead(Moved(m, es[0]), es[1..]);
      assert forall w: nat :: Die(w) in es <==> Die(w) == es[0] || Die(w) in es[1..];
    }
  }

  /**
   In every run, a taker that is resumed with an offer takes it if the owner of the offer has
   not died by then, and otherwise asks again.
   */
  lemma ResumeDecides(es: seq<Move>, k: nat)
    requires IsMatchRun(NO_MATCH, es) && CanMove(MatchAfter(NO_MATCH, es), Resume(k))
    ensures var m := MatchAfter(NO_MATCH, es);
            && m.q.got[k].Taker?
            && var v, m' := m.q.got[k].id, Moved(m, Resume(k));
               if Die(m.q.values[k]) in es then Seeking(m', v) && m'.q.posted == m.q.posted + [WaitTask(Taker(v))]
               else v in m'.taken && m'.taken[v] == k && m'.q == m.q
  {
    NoMatchInv();
    MatchRunKept(NO_MATCH, es);
    GoneAreDead(NO_MATCH, es);
    var m := MatchAfter(NO_MATCH, es);
    UnresumedSeeks(m, k);
    hide MatchInv, MatchAfter, IsMatchRun;
  }

  lemma InTurnMeans(m: Match)
    requires MatchInv(m) && InTurn(m)
    ensures |m.q.got| == |m.q.values|
    ensures forall v <- m.taken, k :: 0 <= k < |m.q.got| && m.q.got[k] == Taker(v) ==>
              && k <= m.taken[v] && k in m.resumed
              && (k in m.skipped <==> k < m.taken[v])
              && (k < m.taken[v] ==> m.q.values[k] in m.gone)
  {
    HandedOverOnce(m.q);
    assert forall v <- m.taken :: m.taken[v] < |m.q.got| && m.q.got[m.taken[v]] == Taker(v);
    hide MatchInv, QueueInv, TakenAre;
  }

  lemma OfferPlaced(q: State<Party, nat>, p: (Party, nat))
    requires QueueInv(q) && p in q.calledProvides
    ensures multiset(q.posted)[ProvideTask(p.0, p.1)] + ProvidePlaces(q, p) == 1
  {
    OnceCounts(q.calledProvides, p);
    assert p in multiset(q.calledProvides);
    assert ProvideAccounted(q, p);
    hide Rendezvous, Drained, ProvidePlaces;
  }

  lemma SeekerPlaced(m: Match, v: nat)
    requires MatchInv(m) && Seeking(m, v)
    ensures multiset(m.q.posted)[WaitTask(Taker(v))] + multiset(m.q.q)[Taker(v)] + multiset(m.q.abortedWaits)[Taker(v)]
            + multiset(m.q.got)[Taker(v)] - Turns(m.q.got, m.resumed, v, |m.q.got|) == 1
  {
    assert TurnsCounted(m, v);
    assert WaitAccounted(m.q, Taker(v));
  }

  /**
   Nothing is lost: an offer is in exactly one place; one that was handed over went to
   the taker that was resumed with it, unless it was gone; and a taker that still seeks
   has exactly one wait posted, queued, aborted, or completed and about to be resumed.
   */
  lemma NothingIsLost(es: seq<Move>)
    requires IsMatchRun(NO_MATCH, es)
    ensures var m := MatchAfter(NO_MATCH, es);
            && |m.q.got| == |m.q.values|
            && (forall p <- m.q.calledProvides ::
                  multiset(m.q.posted)[ProvideTask(p.0, p.1)] + ProvidePlaces(m.q, p) == 1)
            && (forall k <- m.resumed :: k < |m.q.values| &&
                  (m.q.values[k] in m.gone || exists v :: v in m.taken && m.taken[v] == k && m.q.got[k] == Taker(v)))
            && (forall v :: Seeking(m, v) ==>
                  multiset(m.q.posted)[WaitTask(Taker(v))] + multiset(m.q.q)[Taker(v)] +
                    multiset(m.q.abortedWaits)[Taker(v)]
                  + multiset(m.q.got)[Taker(v)] - Turns(m.q.got, m.resumed, v, |m.q.got|) == 1)
  {
    NoMatchInv();
    MatchRunKept(NO_MATCH, es);
    var m := MatchAfter(NO_MATCH, es);
    hide TurnsCounted;
    forall p | p in m.q.calledProvides
      ensures multiset(m.q.posted)[ProvideTask(p.0, p.1)] + ProvidePlaces(m.q, p) == 1
    {
      OfferPlaced(m.q, p);
    }
    forall k | k in m.resumed
      ensures k < |m.q.values| &&
              (m.q.values[k] in m.gone || exists v :: v in m.taken && m.taken[v] == k && m.q.got[k] == Taker(v))
    {
      if m.q.values[k] !in m.gone {
        assert m.q.got[k] == Taker(m.q.got[k].id);
      }
    }
    forall v | Seeking(m, v)
      ensures multiset(m.q.posted)[WaitTask(Taker(v))] + multiset(m.q.q)[Taker(v)] +
                multiset(m.q.abortedWaits)[Taker(v)]
              + multiset(m.q.got)[Taker(v)] - Turns(m.q.got, m.resumed, v, |m.q.got|) == 1
    {
      SeekerPlaced(m, v);
    }
  }
}

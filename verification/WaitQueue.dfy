/**
 The rendezvous queue: coroutines that wait for a value meet coroutines that
 provide one.  Every call posts a task to an executor; the executor runs the
 tasks one at a time, and completion handlers are themselves posted, so a task
 never runs a handler inline.  H names a completion handler, R a value.
 */
module WaitQueue {
  import opened Seqs

  datatype Task<H, R> = WaitTask(h: H) | ProvideTask(h: H, r: R) | DrainTask

  /**
   `q`, `vq` and `closed` are the fields of the queue and `posted` what the
   executor has not run.  The completions are kept by kind, each kind in the
   order it was posted: waiter `got[k]` completed with `values[k]`, the provide
   calls `served` completed without error, the others were aborted.  The last
   four fields are histories: `waits` and `provs` of the calls whose task ran
   while the queue was open, `calledWaits` and `calledProvides` of all calls.
   */
  datatype State<H, R> = State(
    q: seq<H>,
    vq: seq<(H, R)>,
    closed: bool,
    posted: seq<Task<H, R>>,
    got: seq<H>,
    values: seq<R>,
    served: seq<(H, R)>,
    abortedWaits: seq<H>,
    abortedProvides: seq<(H, R)>,
    waits: seq<H>,
    provs: seq<(H, R)>,
    calledWaits: seq<H>,
    calledProvides: seq<(H, R)>)

  datatype Event<H, R> = CallWait(h: H) | CallProvide(h: H, r: R) | CallClose | Run(i: nat)

  function Empty<H, R>(): State<H, R> {
    State([], [], false, [], [], [], [], [], [], [], [], [], [])
  }

  function PostWait<H, R>(s: State<H, R>, h: H): State<H, R> {
    s.(posted := s.posted + [WaitTask(h)], calledWaits := s.calledWaits + [h])
  }

  function PostProvide<H, R>(s: State<H, R>, h: H, r: R): State<H, R> {
    s.(posted := s.posted + [ProvideTask(h, r)], calledProvides := s.calledProvides + [(h, r)])
  }

  function Close<H, R>(s: State<H, R>): State<H, R> {
    s.(closed := true, posted := s.posted + [DrainTask])
  }

  function RunWait<H, R>(s: State<H, R>, h: H): State<H, R> {
    if s.closed then
      s.(abortedWaits := s.abortedWaits + [h])
    else if s.vq != [] then
      s.(got := s.got + [h], values := s.values + [s.vq[0].1], served := s.served + [s.vq[0]], vq := s.vq[1..],
         waits := s.waits + [h])
    else
      s.(q := s.q + [h], waits := s.waits + [h])
  }

  function RunProvide<H, R>(s: State<H, R>, h: H, r: R): State<H, R> {
    if s.closed then
      s.(abortedProvides := s.abortedProvides + [(h, r)])
    else if s.q != [] then
      s.(got := s.got + [s.q[0]], values := s.values + [r], served := s.served + [(h, r)], q := s.q[1..],
         provs := s.provs + [(h, r)])
    else
      s.(vq := s.vq + [(h, r)], provs := s.provs + [(h, r)])
  }

  function RunDrain<H, R>(s: State<H, R>): State<H, R> {
    s.(abortedWaits := s.abortedWaits + s.q, abortedProvides := s.abortedProvides + s.vq, q := [], vq := [])
  }

  function RunTask<H, R>(s: State<H, R>, i: nat): State<H, R>
    requires i < |s.posted|
  {
    var t := s.(posted := s.posted[..i] + s.posted[i + 1..]);
    match s.posted[i]
    case WaitTask(h) => RunWait(t, h)
    case ProvideTask(h, r) => RunProvide(t, h, r)
    case DrainTask => RunDrain(t)
  }

  predicate Enabled<H, R>(s: State<H, R>, e: Event<H, R>) {
    e.Run? ==> e.i < |s.posted|
  }

  function Apply<H, R>(s: State<H, R>, e: Event<H, R>): State<H, R>
    requires Enabled(s, e)
  {
    match e
    case CallWait(h) => PostWait(s, h)
    case CallProvide(h, r) => PostProvide(s, h, r)
    case CallClose => Close(s)
    case Run(i) => RunTask(s, i)
  }

  // Runs: any interleaving of calls with the running of posted tasks, in any order.

  ghost predicate IsRun<H, R>(s: State<H, R>, es: seq<Event<H, R>>)
    decreases |es|
  {
    es == [] || (Enabled(s, es[0]) && IsRun(Apply(s, es[0]), es[1..]))
  }

  ghost function After<H, R>(s: State<H, R>, es: seq<Event<H, R>>): State<H, R>
    requires IsRun(s, es)
    decreases |es|
  {
    if es == [] then s else After(Apply(s, es[0]), es[1..])
  }

  // ---- Who meets whom --------------------------------------------------

  function Matched<H, R>(s: State<H, R>): nat { Min(|s.waits|, |s.provs|) }

  /** What was handed over is fixed by the arrival histories; the deques hold the unmatched rest. */
  ghost predicate Rendezvous<H, R>(s: State<H, R>) {
    var m := Matched(s);
    && s.got == s.waits[..m] && s.served == s.provs[..m]
    && |s.values| == m && (forall k :: 0 <= k < m ==> s.values[k] == s.provs[k].1)
    && (|| (s.q == s.waits[m..] && s.vq == s.provs[m..])
        || (s.closed && s.q == [] && s.vq == []))
  }

  /** A closed queue whose drain has run holds nobody. */
  ghost predicate Drained<H, R>(s: State<H, R>) {
    && (s.closed && DrainTask !in s.posted ==> s.q == [] && s.vq == [])
    && (DrainTask in s.posted ==> s.closed)
  }

  lemma RunWaitMeets<H, R>(s: State<H, R>, h: H)
    requires Rendezvous(s)
    ensures Rendezvous(RunWait(s, h))
  {
    if !s.closed && s.vq != [] {
      assert s.vq[0] == s.provs[|s.waits|];
    }
  }

  lemma RunProvideMeets<H, R>(s: State<H, R>, h: H, r: R)
    requires Rendezvous(s)
    ensures Rendezvous(RunProvide(s, h, r))
  {
    if !s.closed && s.q != [] {
      assert s.q[0] == s.waits[|s.provs|];
    }
  }

  lemma ApplyMeets<H, R>(s: State<H, R>, e: Event<H, R>)
    requires Rendezvous(s) && Drained(s) && Enabled(s, e)
    ensures Rendezvous(Apply(s, e)) && Drained(Apply(s, e))
  {
    if e.Run? {
      var rest := s.posted[..e.i] + s.posted[e.i + 1..];
      assert s.posted == s.posted[..e.i] + [s.posted[e.i]] + s.posted[e.i + 1..];
      assert DrainTask in s.posted <==> s.posted[e.i] == DrainTask || DrainTask in rest;
      var t := s.(posted := rest);
      match s.posted[e.i]
      case WaitTask(h) => RunWaitMeets(t, h);
      case ProvideTask(h, r) => RunProvideMeets(t, h, r);
      case DrainTask =>
    }
  }

  lemma {:induction false} RunMeets<H, R>(s: State<H, R>, es: seq<Event<H, R>>)
    requires Rendezvous(s) && Drained(s) && IsRun(s, es)
    ensures Rendezvous(After(s, es)) && Drained(After(s, es))
    decreases |es|
  {
    if es != [] {
      ApplyMeets(s, es[0]);
      RunMeets(Apply(s, es[0]), es[1..]);
    }
  }

  /**
   In every run, the k-th waiter gets the k-th value and the provide calls served
   are exactly those whose value was handed over; while the queue is open the
   deques are the unmatched suffixes of the arrivals, so one of them is empty.
   */
  lemma KthValueToKthWaiter<H, R>(es: seq<Event<H, R>>)
    requires IsRun(Empty<H, R>(), es)
    ensures var s := After(Empty<H, R>(), es);
            var m := Min(|s.waits|, |s.provs|);
            && |s.got| == |s.values| == |s.served| == m
            && (forall k :: 0 <= k < m ==>
                  s.got[k] == s.waits[k] && s.values[k] == s.provs[k].1 && s.served[k] == s.provs[k])
            && (s.q == [] || s.vq == [])
            && (!s.closed ==> s.q == s.waits[m..] && s.vq == s.provs[m..])
  {
    RunMeets(Empty<H, R>(), es);
  }

  // ---- Every handler completes exactly once ----------------------------

  /** How often handler h sits in the deque or has completed a wait(). */
  ghost function WaitPlaces<H, R>(s: State<H, R>, h: H): nat {
    multiset(s.q)[h] + multiset(s.got)[h] + multiset(s.abortedWaits)[h]
  }

  ghost function ProvidePlaces<H, R>(s: State<H, R>, p: (H, R)): nat {
    multiset(s.vq)[p] + multiset(s.served)[p] + multiset(s.abortedProvides)[p]
  }

  /** Every call of wait() is in exactly one place: still posted, in the deque, or completed. */
  ghost predicate WaitAccounted<H, R>(s: State<H, R>, h: H) {
    multiset(s.calledWaits)[h] == multiset(s.posted)[WaitTask(h)] + WaitPlaces(s, h)
  }

  /** The same for provide(). */
  ghost predicate ProvideAccounted<H, R>(s: State<H, R>, p: (H, R)) {
    multiset(s.calledProvides)[p] == multiset(s.posted)[ProvideTask(p.0, p.1)] + ProvidePlaces(s, p)
  }

  lemma Removed<T>(s: seq<T>, i: nat, x: T)
    requires i < |s|
    ensures multiset(s)[x] == multiset(s[..i] + s[i + 1..])[x] + if s[i] == x then 1 else 0
  {
    assert s == s[..i] + [s[i]] + s[i + 1..];
  }

  /** Running a task neither posts a task nor makes a call. */
  lemma RunPostsNothing<H, R>(s: State<H, R>, task: Task<H, R>)
    ensures var t := match task
                     case WaitTask(h) => RunWait(s, h)
                     case ProvideTask(h, r) => RunProvide(s, h, r)
                     case DrainTask => RunDrain(s);
            t.posted == s.posted && t.calledWaits == s.calledWaits && t.calledProvides == s.calledProvides
  {
  }

  lemma WaitMoves<H, R>(s: State<H, R>, h: H, x: H)
    ensures WaitPlaces(RunWait(s, h), x) == WaitPlaces(s, x) + if h == x then 1 else 0
  {
  }

  lemma ProvideMovesWaits<H, R>(s: State<H, R>, h: H, r: R, x: H)
    ensures WaitPlaces(RunProvide(s, h, r), x) == WaitPlaces(s, x)
  {
    if s.q != [] {
      assert s.q == [s.q[0]] + s.q[1..];
    }
  }

  lemma WaitMovesProvides<H, R>(s: State<H, R>, h: H, p: (H, R))
    ensures ProvidePlaces(RunWait(s, h), p) == ProvidePlaces(s, p)
  {
    if s.vq != [] {
      assert s.vq == [s.vq[0]] + s.vq[1..];
    }
  }

  lemma ProvideMoves<H, R>(s: State<H, R>, h: H, r: R, p: (H, R))
    ensures ProvidePlaces(RunProvide(s, h, r), p) == ProvidePlaces(s, p) + if (h, r) == p then 1 else 0
  {
  }

  lemma DrainMovesWaits<H, R>(s: State<H, R>, x: H)
    ensures WaitPlaces(RunDrain(s), x) == WaitPlaces(s, x)
  {
  }

  lemma DrainMovesProvides<H, R>(s: State<H, R>, p: (H, R))
    ensures ProvidePlaces(RunDrain(s), p) == ProvidePlaces(s, p)
  {
  }

  lemma TaskAccountsWait<H, R>(s: State<H, R>, i: nat, x: H)
    requires WaitAccounted(s, x) && i < |s.posted|
    ensures WaitAccounted(RunTask(s, i), x)
  {
    Removed(s.posted, i, WaitTask(x));
    var t := s.(posted := s.posted[..i] + s.posted[i + 1..]);
    assert WaitPlaces(t, x) == WaitPlaces(s, x);
    RunPostsNothing(t, s.posted[i]);
    hide RunWait, RunProvide, RunDrain, WaitPlaces;
    match s.posted[i]
    case WaitTask(h) => WaitMoves(t, h, x);
    case ProvideTask(h, r) => ProvideMovesWaits(t, h, r, x);
    case DrainTask => DrainMovesWaits(t, x);
  }

  lemma ApplyAccountsWait<H, R>(s: State<H, R>, e: Event<H, R>, x: H)
    requires WaitAccounted(s, x) && Enabled(s, e)
    ensures WaitAccounted(Apply(s, e), x)
  {
    if e.Run? {
      TaskAccountsWait(s, e.i, x);
    }
  }

  lemma TaskAccountsProvide<H, R>(s: State<H, R>, i: nat, p: (H, R))
    requires ProvideAccounted(s, p) && i < |s.posted|
    ensures ProvideAccounted(RunTask(s, i), p)
  {
    Removed(s.posted, i, ProvideTask(p.0, p.1));
    var rest := s.posted[..i] + s.posted[i + 1..];
    var t := s.(posted := rest);
    assert ProvidePlaces(t, p) == ProvidePlaces(s, p);
    RunPostsNothing(t, s.posted[i]);
    assert s.posted[i].ProvideTask? ==>
             (ProvideTask(p.0, p.1) == s.posted[i] <==> p == (s.posted[i].h, s.posted[i].r));
    hide RunWait, RunProvide, RunDrain, ProvidePlaces;
    match s.posted[i]
    case WaitTask(h) => WaitMovesProvides(t, h, p);
    case ProvideTask(h, r) => ProvideMoves(t, h, r, p);
    case DrainTask => DrainMovesProvides(t, p);
  }

  lemma ApplyAccountsProvide<H, R>(s: State<H, R>, e: Event<H, R>, p: (H, R))
    requires ProvideAccounted(s, p) && Enabled(s, e)
    ensures ProvideAccounted(Apply(s, e), p)
  {
    if e.Run? {
      TaskAccountsProvide(s, e.i, p);
    }
  }

  lemma {:induction false} RunAccountsWait<H, R>(s: State<H, R>, es: seq<Event<H, R>>, x: H)
    requires WaitAccounted(s, x) && IsRun(s, es)
    ensures WaitAccounted(After(s, es), x)
    decreases |es|
  {
    if es != [] {
      ApplyAccountsWait(s, es[0], x);
      RunAccountsWait(Apply(s, es[0]), es[1..], x);
    }
  }

  lemma {:induction false} RunAccountsProvide<H, R>(s: State<H, R>, es: seq<Event<H, R>>, p: (H, R))
    requires ProvideAccounted(s, p) && IsRun(s, es)
    ensures ProvideAccounted(After(s, es), p)
    decreases |es|
  {
    if es != [] {
      ApplyAccountsProvide(s, es[0], p);
      RunAccountsProvide(Apply(s, es[0]), es[1..], p);
    }
  }

  /** The queue is closed exactly if close() was called. */
  lemma {:induction false} ClosedByCall<H, R>(s: State<H, R>, es: seq<Event<H, R>>)
    requires IsRun(s, es)
    ensures After(s, es).closed <==> s.closed || CallClose in es
    decreases |es|
  {
    if es != [] {
      ClosedByCall(Apply(s, es[0]), es[1..]);
      assert CallClose in es <==> es[0] == CallClose || CallClose in es[1..];
    }
  }

  /**
   In every run that closed the queue, once no task is posted every call of
   wait() and provide() has completed exactly once, whatever the order in which
   tasks ran and however often the queue was closed.
   */
  lemma CompletesExactlyOnce<H(!new), R(!new)>(es: seq<Event<H, R>>)
    requires IsRun(Empty<H, R>(), es)
    ensures After(Empty<H, R>(), es).closed <==> CallClose in es
    ensures var s := After(Empty<H, R>(), es);
            s.closed && s.posted == [] ==>
              && multiset(s.got) + multiset(s.abortedWaits) == multiset(s.calledWaits)
              && multiset(s.served) + multiset(s.abortedProvides) == multiset(s.calledProvides)
              && s.q == [] && s.vq == []
  {
    RunMeets(Empty<H, R>(), es);
    ClosedByCall(Empty<H, R>(), es);
    var s := After(Empty<H, R>(), es);
    if s.closed && s.posted == [] {
      forall x: H
        ensures multiset(s.calledWaits)[x] == (multiset(s.got) + multiset(s.abortedWaits))[x]
      {
        RunAccountsWait(Empty<H, R>(), es, x);
      }
      forall p: (H, R)
        ensures multiset(s.calledProvides)[p] == (multiset(s.served) + multiset(s.abortedProvides))[p]
      {
        RunAccountsProvide(Empty<H, R>(), es, p);
      }
    }
  }

  /** Posted tasks can all be run, in the order they were posted. */
  lemma {:induction false} RunAll<H, R>(s: State<H, R>) returns (es: seq<Event<H, R>>)
    ensures IsRun(s, es) && After(s, es).posted == [] && (forall e <- es :: e == Run(0))
    ensures |es| == |s.posted|
    decreases |s.posted|
  {
    if s.posted == [] {
      es := [];
    } else {
      var rest := RunAll(RunTask(s, 0));
      es := [Run(0)] + rest;
      assert es[1..] == rest;
    }
  }

  lemma {:induction false} ClosedEmptyStays<H, R>(s: State<H, R>, es: seq<Event<H, R>>)
    requires s.closed && s.q == [] && s.vq == [] && IsRun(s, es)
    ensures var t := After(s, es); t.closed && t.q == [] && t.vq == [] && t.got == s.got && t.served == s.served
    decreases |es|
  {
    if es != [] {
      ClosedEmptyStays(Apply(s, es[0]), es[1..]);
    }
  }

  /** Once the queue is closed and no drain is posted, nothing is handed over and nobody is left in a deque again. */
  lemma StaysDrained<H, R>(es: seq<Event<H, R>>, fs: seq<Event<H, R>>)
    requires IsRun(Empty<H, R>(), es)
    requires var s := After(Empty<H, R>(), es); s.closed && DrainTask !in s.posted && IsRun(s, fs)
    ensures var s := After(Empty<H, R>(), es);
            var t := After(s, fs);
            t.q == [] && t.vq == [] && t.got == s.got && t.served == s.served
  {
    RunMeets(Empty<H, R>(), es);
    ClosedEmptyStays(After(Empty<H, R>(), es), fs);
  }

  // ---- An executor that runs tasks in the order they were posted -------

  /** The handlers of wait() calls among the posted tasks. */
  function PendingWaits<H, R>(ts: seq<Task<H, R>>): seq<H> {
    if ts == [] then [] else if ts[0].WaitTask? then [ts[0].h] + PendingWaits(ts[1..]) else PendingWaits(ts[1..])
  }

  /** The handlers and values of provide() calls among the posted tasks. */
  function PendingProvides<H, R>(ts: seq<Task<H, R>>): seq<(H, R)> {
    if ts == [] then []
    else if ts[0].ProvideTask? then [(ts[0].h, ts[0].r)] + PendingProvides(ts[1..])
    else PendingProvides(ts[1..])
  }

  lemma {:induction false} PendingAppend<H, R>(ts: seq<Task<H, R>>, t: Task<H, R>)
    ensures PendingWaits(ts + [t]) == if t.WaitTask? then PendingWaits(ts) + [t.h] else PendingWaits(ts)
    ensures PendingProvides(ts + [t]) == if t.ProvideTask? then PendingProvides(ts) + [(t.h, t.r)]
              else PendingProvides(ts)
  {
    if ts == [] {
      assert ts + [t] == [t];
    } else {
      PendingAppend(ts[1..], t);
      assert (ts + [t])[1..] == ts[1..] + [t];
    }
  }

  /** The calls whose task ran on an open queue are the first ones made. */
  ghost predicate InCallOrder<H, R>(s: State<H, R>) {
    && s.waits <= s.calledWaits && s.provs <= s.calledProvides
    && (!s.closed ==>
          && s.calledWaits == s.waits + PendingWaits(s.posted)
          && s.calledProvides == s.provs + PendingProvides(s.posted))
  }

  lemma PostKeepsCallOrder<H, R>(s: State<H, R>, e: Event<H, R>)
    requires InCallOrder(s) && !e.Run?
    ensures InCallOrder(Apply(s, e))
  {
    match e
    case CallWait(h) => PendingAppend(s.posted, WaitTask(h));
    case CallProvide(h, r) => PendingAppend(s.posted, ProvideTask(h, r));
    case CallClose =>
  }

  lemma RunKeepsCallOrder<H, R>(s: State<H, R>)
    requires InCallOrder(s) && s.posted != []
    ensures InCallOrder(RunTask(s, 0))
  {
    assert s.posted[..0] + s.posted[1..] == s.posted[1..];
    var t := s.(posted := s.posted[1..]);
    match s.posted[0]
    case WaitTask(h) => assert RunTask(s, 0) == RunWait(t, h);
    case ProvideTask(h, r) => assert RunTask(s, 0) == RunProvide(t, h, r);
    case DrainTask => assert RunTask(s, 0) == RunDrain(t);
  }

  ghost predicate Fifo<H, R>(es: seq<Event<H, R>>) {
    forall e <- es :: e.Run? ==> e.i == 0
  }

  lemma {:induction false} FifoKeepsCallOrder<H, R>(s: State<H, R>, es: seq<Event<H, R>>)
    requires InCallOrder(s) && IsRun(s, es) && Fifo(es)
    ensures InCallOrder(After(s, es))
    decreases |es|
  {
    if es != [] {
      assert es[0] in es;
      if es[0].Run? {
        RunKeepsCallOrder(s);
      } else {
        PostKeepsCallOrder(s, es[0]);
      }
      FifoKeepsCallOrder(Apply(s, es[0]), es[1..]);
    }
  }

  /** With the first-in first-out executor, the k-th wait() called gets the value of the k-th provide() called. */
  lemma KthCallToKthCall<H, R>(es: seq<Event<H, R>>)
    requires IsRun(Empty<H, R>(), es) && Fifo(es)
    ensures var s := After(Empty<H, R>(), es);
            && s.got <= s.calledWaits && s.served <= s.calledProvides && |s.got| == |s.values| == |s.served|
            && forall k :: 0 <= k < |s.values| ==> s.values[k] == s.calledProvides[k].1
  {
    RunMeets(Empty<H, R>(), es);
    FifoKeepsCallOrder(Empty<H, R>(), es);
  }

  // ---- The queue as the program updates it in place --------------------

  class Queue<H, R> {
    var q: seq<H>
    var vq: seq<(H, R)>
    var closed: bool
    var posted: seq<Task<H, R>>
    var got: seq<H>
    var values: seq<R>
    var served: seq<(H, R)>
    var abortedWaits: seq<H>
    var abortedProvides: seq<(H, R)>
    ghost var waits: seq<H>
    ghost var provs: seq<(H, R)>
    ghost var calledWaits: seq<H>
    ghost var calledProvides: seq<(H, R)>

    ghost function View(): State<H, R>
      reads this
    {
      State(q, vq, closed, posted, got, values, served, abortedWaits, abortedProvides,
            waits, provs, calledWaits, calledProvides)
    }

    ghost predicate Valid()
      reads this
    {
      Rendezvous(View()) && Drained(View())
    }

    constructor ()
      ensures Valid() && View() == Empty()
    {
      q, vq, closed, posted := [], [], false, [];
      got, values, served, abortedWaits, abortedProvides := [], [], [], [], [];
      waits, provs, calledWaits, calledProvides := [], [], [], [];
    }

    method Wait(h: H)
      requires Valid()
      modifies this
      ensures Valid() && View() == PostWait(old(View()), h)
    {
      ApplyMeets(View(), CallWait(h));
      posted := posted + [WaitTask(h)];
      calledWaits := calledWaits + [h];
    }

    method Provide(h: H, r: R)
      requires Valid()
      modifies this
      ensures Valid() && View() == PostProvide(old(View()), h, r)
    {
      ApplyMeets(View(), CallProvide(h, r));
      posted := posted + [ProvideTask(h, r)];
      calledProvides := calledProvides + [(h, r)];
    }

    /** The flag is set at once; the waiting and providing handlers are aborted by a task. */
    method CloseQueue()
      requires Valid()
      modifies this
      ensures Valid() && View() == Close(old(View()))
    {
      ApplyMeets(View(), CallClose);
      closed := true;
      posted := posted + [DrainTask];
    }

    method RunFirst()
      requires Valid() && posted != []
      modifies this
      ensures Valid() && View() == RunTask(old(View()), 0)
    {
      ApplyMeets(View(), Run(0));
      var task := posted[0];
      assert posted[..0] + posted[1..] == posted[1..];
      posted := posted[1..];
      match task
      case WaitTask(h) => TryWait(h);
      case ProvideTask(h, r) => TryProvide(h, r);
      case DrainTask => Drain();
    }

    method TryWait(h: H)
      modifies this
      ensures View() == RunWait(old(View()), h)
    {
      if closed {
        abortedWaits := abortedWaits + [h];
        return;
      }
      if vq != [] {
        var front := vq[0];
        vq := vq[1..];
        got, values := got + [h], values + [front.1];
        served := served + [front];
      } else {
        q := q + [h];
      }
      waits := waits + [h];
    }

    method TryProvide(h: H, r: R)
      modifies this
      ensures View() == RunProvide(old(View()), h, r)
    {
      if closed {
        abortedProvides := abortedProvides + [(h, r)];
        return;
      }
      if q != [] {
        var front := q[0];
        q := q[1..];
        got, values := got + [front], values + [r];
        served := served + [(h, r)];
      } else {
        vq := vq + [(h, r)];
      }
      provs := provs + [(h, r)];
    }

    method Drain()
      modifies this
      ensures View() == RunDrain(old(View()))
    {
      AbortWaiters();
      AbortProviders();
    }

    method AbortWaiters()
      modifies `q, `abortedWaits
      ensures q == [] && abortedWaits == old(abortedWaits) + old(q)
    {
      for i := 0 to |q|
        invariant q == old(q) && abortedWaits == old(abortedWaits) + q[..i]
      {
        abortedWaits := abortedWaits + [q[i]];
      }
      assert q[..|q|] == q;
      q := [];
    }

    method AbortProviders()
      modifies `vq, `abortedProvides
      ensures vq == [] && abortedProvides == old(abortedProvides) + old(vq)
    {
      for i := 0 to |vq|
        invariant vq == old(vq) && abortedProvides == old(abortedProvides) + vq[..i]
      {
        abortedProvides := abortedProvides + [vq[i]];
      }
      assert vq[..|vq|] == vq;
      vq := [];
    }
  }
}

/**
 The client's pool of idle workers for one share.  Whenever a tunnel is taken the
 pool is looked at, and if it is low a coroutine is spawned that adds more workers,
 one connection at a time; several such coroutines can overlap.
 */
module Pool {

  /** worker_count_low, worker_count_initial and worker_count_more. */
  datatype Config = Config(low: int, initial: nat, more: nat)

  /**
   `count` is nr_workers_; `live` are the ids of the workers there are, `registered`
   those in the map, dead or alive, and `given` all ids given out, in order.  A worker
   that was `visited` puts its tunnel into the queue, `offered`, and lives until the
   accept loop has taken it; `taken` says that the loop has taken one and has not looked
   at the pool yet.  `first` is what the coroutine of the initial workers has still to
   add, `refills` the same for every refill at work, and `spawned` how many refills were
   spawned and have not looked at the pool yet.
   */
  datatype State = State(
    count: int, live: set<nat>, registered: set<nat>, nextId: nat, given: seq<nat>,
    visited: set<nat>, offered: seq<nat>, taken: bool,
    started: bool, first: nat, refills: seq<nat>, spawned: nat, closing: bool)

  const NO_WORKERS := State(0, {}, {}, 0, [], {}, [], false, false, 0, [], 0, false)

  datatype Event =
    | StartInitial
    | AddInitial
    | Visit(w: nat)
    | Take
    | Check
    | Begin
    | AddRefill(i: nat)
    | Fails(i: nat)
    | InitialFails
    | Dies(w: nat)
    | Close

  predicate Enabled(p: State, e: Event) {
    match e
    case StartInitial => !p.started
    case AddInitial => p.first > 0
    case Visit(w) => w in p.live && w !in p.visited
    case Take => p.offered != [] && !p.taken
    case Check => p.taken
    case Begin => p.spawned > 0
    case AddRefill(i) => i < |p.refills| && p.refills[i] > 0
    case Fails(i) => i < |p.refills|
    case Dies(w) => w in p.live && w !in p.offered
    case _ => true
  }

  function WithWorker(p: State): State {
    p.(nextId := p.nextId + 1, given := p.given + [p.nextId], count := p.count + 1,
       live := p.live + {p.nextId}, registered := p.registered + {p.nextId})
  }

  function CleanedUp(p: State): State { p.(registered := p.registered * p.live) }

  function Without<T>(s: seq<T>, i: nat): seq<T>
    requires i < |s|
  {
    s[..i] + s[i + 1..]
  }

  /** The accept loop has taken a tunnel: if the pool is low, a refill is spawned. */
  function Checked(c: Config, p: State): State {
    p.(taken := false, spawned := if p.count < c.low then p.spawned + 1 else p.spawned)
  }

  /** A spawned refill looks at the pool again before it adds anything. */
  function Begun(c: Config, p: State): State {
    var q := p.(spawned := if p.spawned > 0 then p.spawned - 1 else 0);
    if p.closing || p.count >= c.low then q
    else CleanedUp(q).(refills := if c.more > 0 then p.refills + [c.more] else p.refills)
  }

  function Apply(c: Config, p: State, e: Event): State
    requires Enabled(p, e)
  {
    match e
    case StartInitial => CleanedUp(p).(started := true, first := c.initial)
    case AddInitial => WithWorker(p).(first := p.first - 1)
    case Visit(w) => p.(visited := p.visited + {w}, offered := if p.closing then p.offered else p.offered + [w])
    case Take => p.(offered := p.offered[1..], taken := true)
    case Check => Checked(c, p)
    case Begin => Begun(c, p)
    case AddRefill(i) =>
      WithWorker(p).(refills := if p.refills[i] == 1 then Without(p.refills, i) else p.refills[i := p.refills[i] - 1])
    case Fails(i) => p.(refills := Without(p.refills, i))
    case InitialFails => p.(first := 0)
    case Dies(w) => p.(live := p.live - {w}, count := p.count - 1)
    case Close => p.(closing := true, offered := [])
  }

  ghost predicate IsRun(c: Config, p: State, es: seq<Event>)
    decreases |es|
  {
    es == [] || (Enabled(p, es[0]) && IsRun(c, Apply(c, p, es[0]), es[1..]))
  }

  ghost function After(c: Config, p: State, es: seq<Event>): State
    requires IsRun(c, p, es)
    decreases |es|
  {
    if es == [] then p else After(c, Apply(c, p, es[0]), es[1..])
  }

  /** At no time are more than k refills at work. */
  ghost predicate Overlap(c: Config, p: State, es: seq<Event>, k: nat)
    requires IsRun(c, p, es)
    decreases |es|
  {
    |p.refills| <= k && (es == [] || Overlap(c, Apply(c, p, es[0]), es[1..], k))
  }

  function Sum(s: seq<nat>): nat { if s == [] then 0 else s[0] + Sum(s[1..]) }

  /** The workers that the coroutines at work have still to add. */
  function Promised(p: State): nat { p.first + Sum(p.refills) }

  // ---- Sums ---------------------------------------------------------------------

  lemma {:induction false} SumConcat(a: seq<nat>, b: seq<nat>)
    ensures Sum(a + b) == Sum(a) + Sum(b)
  {
    if a == [] {
      assert a + b == b;
    } else {
      SumConcat(a[1..], b);
      assert (a + b)[1..] == a[1..] + b;
    }
  }

  lemma SumOne(x: nat)
    ensures Sum([x]) == x
  {
    assert Sum([x][1..]) == 0;
  }

  lemma SumAt(s: seq<nat>, i: nat, x: nat)
    requires i < |s|
    ensures Sum(Without(s, i)) == Sum(s) - s[i]
    ensures Sum(s[i := x]) == Sum(s) - s[i] + x
  {
    assert s == s[..i] + ([s[i]] + s[i + 1..]);
    assert s[i := x] == s[..i] + ([x] + s[i + 1..]);
    SumConcat(s[..i], [s[i]] + s[i + 1..]);
    SumConcat([s[i]], s[i + 1..]);
    SumConcat(s[..i], [x] + s[i + 1..]);
    SumConcat([x], s[i + 1..]);
    SumConcat(s[..i], s[i + 1..]);
    SumOne(s[i]);
    SumOne(x);
  }

  lemma {:induction false} SumBounded(s: seq<nat>, x: nat)
    requires forall j :: 0 <= j < |s| ==> s[j] <= x
    ensures Sum(s) <= |s| * x
  {
    if s != [] {
      SumBounded(s[1..], x);
      assert |s| * x == x + |s[1..]| * x;
    }
  }

  // ---- What every step keeps ---------------------------------------------------------

  ghost predicate AllWithin(s: seq<nat>, bound: nat) { forall j :: 0 <= j < |s| ==> 0 < s[j] <= bound }

  ghost predicate Inv(c: Config, p: State) {
    && p.count == |p.live| && p.live <= p.registered
    && (forall w <- p.registered :: w < p.nextId) && (forall w <- p.visited :: w < p.nextId)
    && |p.given| == p.nextId && (forall i :: 0 <= i < |p.given| ==> p.given[i] == i)
    && p.first <= (if p.started then c.initial else 0)
    && AllWithin(p.refills, c.more)
  }

  lemma StillWithin(s: seq<nat>, i: nat, x: nat, bound: nat)
    requires i < |s| && AllWithin(s, bound)
    ensures AllWithin(Without(s, i), bound)
    ensures 0 < x <= bound ==> AllWithin(s[i := x], bound)
  {
  }

  lemma WorkerAdded(c: Config, p: State)
    requires Inv(c, p)
    ensures Inv(c, WithWorker(p)) && |WithWorker(p).live| == |p.live| + 1
  {
    assert p.nextId !in p.live;
  }

  lemma RefillAdds(c: Config, p: State, i: nat)
    requires Inv(c, p) && i < |p.refills| && p.refills[i] > 0
    ensures Inv(c, Apply(c, p, AddRefill(i)))
  {
    WorkerAdded(c, p);
    StillWithin(p.refills, i, p.refills[i] - 1, c.more);
    assert p.refills[i] <= c.more;
    hide Without, AllWithin;
  }

  lemma FailKept(c: Config, p: State, i: nat)
    requires Inv(c, p) && i < |p.refills|
    ensures Inv(c, p.(refills := Without(p.refills, i)))
  {
    StillWithin(p.refills, i, 1, c.more);
    hide Without, AllWithin;
  }

  lemma InitialAdds(c: Config, p: State)
    requires Inv(c, p) && p.first > 0
    ensures Inv(c, WithWorker(p).(first := p.first - 1))
  {
    WorkerAdded(c, p);
    hide AllWithin, WithWorker;
  }

  lemma DeathKept(c: Config, p: State, w: nat)
    requires Inv(c, p) && w in p.live
    ensures Inv(c, p.(live := p.live - {w}, count := p.count - 1))
  {
    assert |p.live - {w}| == |p.live| - 1;
    hide AllWithin;
  }

  lemma StartKept(c: Config, p: State)
    requires Inv(c, p)
    ensures Inv(c, CleanedUp(p).(started := true, first := c.initial))
  {
    assert p.live <= p.registered * p.live;
    hide AllWithin;
  }

  lemma TunnelKept(c: Config, p: State, visited: set<nat>, offered: seq<nat>, taken: bool, spawned: nat, closing: bool)
    requires Inv(c, p) && forall w <- visited :: w < p.nextId
    ensures Inv(c, p.(visited := visited, offered := offered, taken := taken, spawned := spawned, closing := closing))
  {
    hide AllWithin;
  }

  lemma TunnelStepKept(c: Config, p: State, e: Event)
    requires Inv(c, p) && Enabled(p, e) && (e.Visit? || e.Take? || e.Check? || e.Close?)
    ensures Inv(c, Apply(c, p, e))
  {
    var p' := Apply(c, p, e);
    assert forall w <- p'.visited :: w < p.nextId;
    assert p' == p.(visited := p'.visited, offered := p'.offered, taken := p'.taken, spawned := p'.spawned,
                    closing := p'.closing);
    hide Inv, Enabled, Apply;
    TunnelKept(c, p, p'.visited, p'.offered, p'.taken, p'.spawned, p'.closing);
  }

  lemma NoneLeft(c: Config, p: State)
    requires Inv(c, p)
    ensures Inv(c, p.(first := 0))
  {
    hide AllWithin;
  }

  lemma BeginKept(c: Config, p: State)
    requires Inv(c, p)
    ensures Inv(c, Begun(c, p))
  {
    assert p.live <= p.registered * p.live;
  }

  lemma StepKept(c: Config, p: State, e: Event)
    requires Inv(c, p) && Enabled(p, e)
    ensures Inv(c, Apply(c, p, e))
  {
    if e.Visit? || e.Take? || e.Check? || e.Close? {
      hide *;
      TunnelStepKept(c, p, e);
    } else {
      hide Inv, WithWorker, CleanedUp, Without, Begun;
      match e
      case StartInitial => StartKept(c, p);
      case AddInitial => InitialAdds(c, p);
      case AddRefill(i) =>
        hide Apply;
        RefillAdds(c, p, i);
      case Fails(i) => FailKept(c, p, i);
      case Begin => BeginKept(c, p);
      case Dies(w) => DeathKept(c, p, w);
      case InitialFails => NoneLeft(c, p);
    }
  }

  /** What k overlapping refills can promise. */
  function Overlapping(c: Config, k: nat): nat { k * c.more }

  /** The bound on workers and promises; k is the number of refills that may overlap. */
  function Limit(c: Config, p: State, k: nat): int {
    (if c.low >= 1 then c.low - 1 else 0) + (if p.started then c.initial else 0) + Overlapping(c, k)
  }

  lemma BeginWithinLimit(c: Config, p: State, k: nat)
    requires Inv(c, p) && |p.live| + Promised(p) <= Limit(c, p, k) && |Begun(c, p).refills| <= k
    ensures |Begun(c, p).live| + Promised(Begun(c, p)) <= Limit(c, p, k)
  {
    if !p.closing && p.count < c.low && c.more > 0 {
      SumConcat(p.refills, [c.more]);
      SumOne(c.more);
      RoomForOneMore(c, p.refills, k);
      hide Overlapping, Sum;
    } else {
      hide Overlapping, Sum;
    }
  }

  /** Fewer than k refills, none of them with more than a full share to add, leave room for another. */
  lemma RoomForOneMore(c: Config, refills: seq<nat>, k: nat)
    requires |refills| + 1 <= k && AllWithin(refills, c.more)
    ensures Sum(refills) + c.more <= Overlapping(c, k)
  {
    SumBounded(refills, c.more);
    Times(|refills| + 1, k, c.more);
    assert (|refills| + 1) * c.more == |refills| * c.more + c.more;
    hide Sum;
  }

  lemma Times(a: nat, b: nat, m: nat)
    requires a <= b
    ensures a * m <= b * m
  {
  }

  lemma RefillWithinLimit(c: Config, p: State, i: nat, k: nat)
    requires Inv(c, p) && i < |p.refills| && p.refills[i] > 0 && |p.live| + Promised(p) <= Limit(c, p, k)
    ensures var p' := Apply(c, p, AddRefill(i)); |p'.live| + Promised(p') <= Limit(c, p', k)
  {
    SumAt(p.refills, i, p.refills[i] - 1);
    WorkerAdded(c, p);
    hide Overlapping, Sum, Without;
  }

  lemma StepWithinLimit(c: Config, p: State, e: Event, k: nat)
    requires Inv(c, p) && Enabled(p, e)
    requires |p.live| + Promised(p) <= Limit(c, p, k) && |Apply(c, p, e).refills| <= k
    ensures var p' := Apply(c, p, e); |p'.live| + Promised(p') <= Limit(c, p', k)
  {
    match e
    case Begin =>
      hide Overlapping, Sum, Begun;
      BeginWithinLimit(c, p, k);
      BegunStarted(c, p);
    case AddRefill(i) =>
      hide *;
      CanRefill(p, i);
      RefillWithinLimit(c, p, i, k);
    case Fails(i) =>
      SumAt(p.refills, i, 0);
      hide Overlapping, Sum, Without;
    case AddInitial =>
      WorkerAdded(c, p);
      hide Overlapping, Sum;
    case Dies(w) =>
      assert |p.live - {w}| <= |p.live|;
      hide Overlapping, Sum;
    case _ => hide Overlapping, Sum;
  }

  lemma BegunStarted(c: Config, p: State)
    ensures Begun(c, p).started == p.started
  {
  }

  lemma CanRefill(p: State, i: nat)
    requires Enabled(p, AddRefill(i))
    ensures i < |p.refills| && p.refills[i] > 0
  {
  }

  lemma {:induction false} RunKept(c: Config, p: State, es: seq<Event>)
    requires Inv(c, p) && IsRun(c, p, es)
    ensures Inv(c, After(c, p, es))
    decreases |es|
  {
    hide Inv, Apply, Enabled;
    if es != [] {
      StepKept(c, p, es[0]);
      RunKept(c, Apply(c, p, es[0]), es[1..]);
    }
  }

  lemma {:induction false} RunWithinLimit(c: Config, p: State, es: seq<Event>, k: nat)
    requires Inv(c, p) && IsRun(c, p, es) && Overlap(c, p, es, k)
    requires |p.live| + Promised(p) <= Limit(c, p, k)
    ensures var p' := After(c, p, es); |p'.live| + Promised(p') <= Limit(c, p', k)
    decreases |es|
  {
    hide Inv, Apply, Enabled, Promised, Limit;
    if es != [] {
      StepKept(c, p, es[0]);
      StepWithinLimit(c, p, es[0], k);
      RunWithinLimit(c, Apply(c, p, es[0]), es[1..], k);
    }
  }

  // ---- What the pool guarantees ----------------------------------------------------------

  /**
   In every run the counter is the number of live workers, every live worker is in the
   map, and the next id is new.
   */
  lemma Counted(c: Config, es: seq<Event>)
    requires IsRun(c, NO_WORKERS, es)
    ensures var p := After(c, NO_WORKERS, es);
            && p.count == |p.live| && p.live <= p.registered
            && p.nextId !in p.registered && (forall w <- p.registered :: w < p.nextId)
  {
    RunKept(c, NO_WORKERS, es);
  }

  lemma StartsCounted(c: Config)
    ensures Inv(c, NO_WORKERS)
  {
    hide Sum;
  }

  lemma StartsPromising()
    ensures |NO_WORKERS.live| == 0 && Promised(NO_WORKERS) == 0
  {
  }

  lemma StartsWithinLimit(c: Config, k: nat)
    ensures Inv(c, NO_WORKERS) && |NO_WORKERS.live| + Promised(NO_WORKERS) <= Limit(c, NO_WORKERS, k)
  {
    StartsCounted(c);
    StartsPromising();
    hide Overlapping, Promised, Inv;
  }

  lemma LimitAtMost(c: Config, p: State, k: nat)
    ensures Limit(c, p, k) <= (if c.low >= 1 then c.low - 1 else 0) + c.initial + Overlapping(c, k)
  {
    hide Overlapping;
  }

  lemma BoundedFrom(c: Config, p: State, es: seq<Event>, k: nat)
    requires IsRun(c, p, es) && Overlap(c, p, es, k)
    requires Inv(c, p) && |p.live| + Promised(p) <= Limit(c, p, k)
    ensures var p' := After(c, p, es);
            |p'.live| + Promised(p') <= (if c.low >= 1 then c.low - 1 else 0) + c.initial + Overlapping(c, k)
  {
    hide *;
    LimitAtMost(c, After(c, p, es), k);
    RunWithinLimit(c, p, es, k);
  }

  /** With at most k overlapping refills, workers and promised workers together stay within the bound. */
  lemma PoolIsBounded(c: Config, es: seq<Event>, k: nat)
    requires IsRun(c, NO_WORKERS, es) && Overlap(c, NO_WORKERS, es, k)
    ensures var p := After(c, NO_WORKERS, es);
            |p.live| + Promised(p) <= (if c.low >= 1 then c.low - 1 else 0) + c.initial + Overlapping(c, k)
  {
    hide *;
    StartsWithinLimit(c, k);
    BoundedFrom(c, NO_WORKERS, es, k);
  }

  /** In every run the ids given out increase, each to one worker, and whoever is live has one of them. */
  lemma IdsIncrease(c: Config, es: seq<Event>)
    requires IsRun(c, NO_WORKERS, es)
    ensures var p := After(c, NO_WORKERS, es);
            && (forall i, j :: 0 <= i < j < |p.given| ==> p.given[i] < p.given[j])
            && (forall w <- p.live :: w in p.given)
            && (forall w <- p.given :: w < p.nextId)
  {
    StartsCounted(c);
    hide Apply, Enabled, Promised;
    RunKept(c, NO_WORKERS, es);
    var p := After(c, NO_WORKERS, es);
    forall w | w in p.live ensures w in p.given {
      assert p.given[w] == w;
    }
  }

  // ---- When promises pile up ----------------------------------------------------------------

  /** A pool whose workers have all been used up, with nothing on its way but promises. */
  ghost predicate UsedUp(c: Config, p: State) {
    && p.live == {} && p.count == 0 && p.offered == [] && !p.taken && !p.closing && p.started && p.spawned == 0
    && AllWithin(p.refills, c.more) && forall w <- p.visited :: w < p.nextId
  }

  /** A promise is kept: one worker is added. */
  lemma OneAdded(c: Config, p: State) returns (e: Event)
    requires UsedUp(c, p) && Promised(p) > 0
    ensures Enabled(p, e)
    ensures var p' := Apply(c, p, e);
            && p' == WithWorker(p).(first := p'.first, refills := p'.refills)
            && AllWithin(p'.refills, c.more) && Promised(p') == Promised(p) - 1
  {
    if p.first > 0 {
      e := AddInitial;
    } else {
      e := AddRefill(0);
      SumAt(p.refills, 0, p.refills[0] - 1);
      StillWithin(p.refills, 0, p.refills[0] - 1, c.more);
    }
  }

  /** The worker is visited, its tunnel taken, and it is gone before the pool is looked at: a refill is promised. */
  lemma OneUsed(c: Config, p: State, w: nat) returns (es: seq<Event>)
    requires p.live == {w} && p.count == 1 && w !in p.visited && p.offered == [] && !p.taken && !p.closing &&
              p.spawned == 0
    requires c.low >= 1 && c.more > 0
    ensures IsRun(c, p, es)
    ensures var p' := After(c, p, es);
            && p' == p.(live := {}, count := 0, visited := p.visited + {w}, registered := p'.registered,
                        refills := p.refills + [c.more])
  {
    var p1 := p.(visited := p.visited + {w}, offered := [w]);
    var p2 := p1.(offered := [], taken := true);
    var p3 := p2.(live := {}, count := 0);
    var p4 := p3.(taken := false, spawned := 1);
    var p5 := Begun(c, p4);
    assert Apply(c, p, Visit(w)) == p1;
    assert [w][1..] == [] && Apply(c, p1, Take) == p2;
    assert {w} - {w} == {} && Apply(c, p2, Dies(w)) == p3;
    assert Apply(c, p3, Check) == p4 && Apply(c, p4, Begin) == p5;
    hide Enabled, Apply;
    es := [];
    es := OneMore(c, p5, Begin, es, p4);
    es := OneMore(c, p4, Check, es, p3);
    es := OneMore(c, p3, Dies(w), es, p2);
    es := OneMore(c, p2, Take, es, p1);
    es := OneMore(c, p1, Visit(w), es, p);
  }

  lemma OneMore(c: Config, p': State, e: Event, es: seq<Event>, p: State) returns (fs: seq<Event>)
    requires Enabled(p, e) && Apply(c, p, e) == p' && IsRun(c, p', es)
    ensures fs == [e] + es && IsRun(c, p, fs) && After(c, p, fs) == After(c, p', es)
  {
    hide Enabled, Apply;
    fs := [e] + es;
    assert fs[1..] == es;
  }

  lemma {:induction false} RunsJoin(c: Config, p: State, es: seq<Event>, fs: seq<Event>)
    requires IsRun(c, p, es) && IsRun(c, After(c, p, es), fs)
    ensures IsRun(c, p, es + fs) && After(c, p, es + fs) == After(c, After(c, p, es), fs)
    decreases |es|
  {
    hide Enabled, Apply;
    if es == [] {
      assert es + fs == fs;
    } else {
      RunsJoin(c, Apply(c, p, es[0]), es[1..], fs);
      assert (es + fs)[1..] == es[1..] + fs;
    }
  }

  /** A worker comes and goes, and leaves a refill behind. */
  lemma OneRound(c: Config, p: State) returns (es: seq<Event>)
    requires UsedUp(c, p) && Promised(p) > 0 && c.low >= 1 && c.more > 0
    ensures IsRun(c, p, es)
    ensures var p' := After(c, p, es); UsedUp(c, p') && Promised(p') == Promised(p) - 1 + c.more
  {
    var e := OneAdded(c, p);
    var p1 := Apply(c, p, e);
    assert p1.live == {p.nextId} && p.nextId !in p1.visited;
    hide Enabled, Apply, Sum, AllWithin;
    es := OneUsed(c, p1, p.nextId);
    SumConcat(p1.refills, [c.more]);
    SumOne(c.more);
    WithinAppend(p1.refills, c.more);
    es := OneMore(c, p1, e, es, p);
  }

  lemma WithinAppend(s: seq<nat>, x: nat)
    requires AllWithin(s, x) && x > 0
    ensures AllWithin(s + [x], x)
  {
  }

  lemma {:induction false} PilesUp(c: Config, n: nat) returns (es: seq<Event>)
    requires c.low >= 1 && c.initial >= 1 && c.more >= 2
    ensures IsRun(c, NO_WORKERS, es)
    ensures var p := After(c, NO_WORKERS, es); UsedUp(c, p) && Promised(p) >= n + 1
  {
    if n == 0 {
      FirstPromise(c);
      es := [StartInitial];
    } else {
      var before := PilesUp(c, n - 1);
      hide UsedUp, Promised, IsRun, After;
      var round := OneRound(c, After(c, NO_WORKERS, before));
      RunsJoin(c, NO_WORKERS, before, round);
      es := before + round;
    }
  }

  lemma FirstPromise(c: Config)
    requires c.initial >= 1
    ensures IsRun(c, NO_WORKERS, [StartInitial])
    ensures var p := After(c, NO_WORKERS, [StartInitial]); UsedUp(c, p) && Promised(p) >= 1
  {
    var p := Apply(c, NO_WORKERS, StartInitial);
    assert [StartInitial][1..] == [] && IsRun(c, p, []);
    assert After(c, NO_WORKERS, [StartInitial]) == p;
  }

  // ---- When they do not ------------------------------------------------------------------------

  /** With refills of at most one worker: everything that can still become a promise. */
  function Potential(p: State): nat {
    Promised(p) + p.spawned + (if p.taken then 1 else 0) + |p.offered| + |p.live - p.visited|
  }

  ghost predicate Thrifty(c: Config, p: State) {
    && AllWithin(p.refills, c.more) && (forall w <- p.visited :: w < p.nextId) && (forall w <- p.live :: w < p.nextId)
    && Potential(p) <= (if p.started then c.initial else 0)
  }

  lemma AddedUnvisited(p: State)
    requires (forall w <- p.visited :: w < p.nextId) && (forall w <- p.live :: w < p.nextId)
    ensures |WithWorker(p).live - p.visited| == |p.live - p.visited| + 1
  {
    assert WithWorker(p).live - p.visited == (p.live - p.visited) + {p.nextId};
  }

  lemma VisitUses(p: State, w: nat)
    requires w in p.live && w !in p.visited
    ensures |p.live - (p.visited + {w})| == |p.live - p.visited| - 1
  {
    assert p.live - (p.visited + {w}) == (p.live - p.visited) - {w};
  }

  lemma DeathUses(p: State, w: nat)
    ensures |(p.live - {w}) - p.visited| <= |p.live - p.visited|
  {
    Subset((p.live - {w}) - p.visited, p.live - p.visited);
  }

  lemma {:induction false} Subset(a: set<nat>, b: set<nat>)
    requires a <= b
    ensures |a| <= |b|
  {
    if a != {} {
      var x :| x in a;
      Subset(a - {x}, b - {x});
    }
  }

  lemma BeginThrifty(c: Config, p: State)
    requires Thrifty(c, p) && p.spawned > 0 && c.more <= 1
    ensures Thrifty(c, Begun(c, p))
  {
    if !p.closing && p.count < c.low && c.more > 0 {
      SumConcat(p.refills, [c.more]);
      SumOne(c.more);
      WithinAppend(p.refills, c.more);
    }
    hide Sum, AllWithin;
  }

  lemma RefillThrifty(c: Config, p: State, i: nat)
    requires Thrifty(c, p) && i < |p.refills| && p.refills[i] > 0 && c.more <= 1
    ensures Thrifty(c, Apply(c, p, AddRefill(i)))
  {
    AddedUnvisited(p);
    SumAt(p.refills, i, p.refills[i] - 1);
    StillWithin(p.refills, i, p.refills[i] - 1, c.more);
    assert p.refills[i] == 1;
    hide Sum, AllWithin, Without;
  }

  lemma FailThrifty(c: Config, p: State, i: nat)
    requires Thrifty(c, p) && i < |p.refills|
    ensures Thrifty(c, Apply(c, p, Fails(i)))
  {
    SumAt(p.refills, i, 0);
    StillWithin(p.refills, i, 1, c.more);
    hide Sum, AllWithin, Without;
  }

  lemma WorkerThrifty(c: Config, p: State, e: Event)
    requires Thrifty(c, p) && Enabled(p, e) && (e.AddInitial? || e.Visit? || e.Dies?)
    ensures Thrifty(c, Apply(c, p, e))
  {
    AddedUnvisited(p);
    if e.Visit? {
      VisitUses(p, e.w);
    }
    if e.Dies? {
      DeathUses(p, e.w);
    }
    hide Sum, AllWithin;
  }

  lemma StepThrifty(c: Config, p: State, e: Event)
    requires Thrifty(c, p) && Enabled(p, e) && c.more <= 1
    ensures Thrifty(c, Apply(c, p, e))
  {
    if e.AddInitial? || e.Visit? || e.Dies? {
      hide *;
      WorkerThrifty(c, p, e);
    } else if e.AddRefill? {
      hide Thrifty, Apply;
      RefillThrifty(c, p, e.i);
    } else if e.Fails? {
      hide Thrifty, Apply;
      FailThrifty(c, p, e.i);
    } else if e.Begin? {
      hide Thrifty, Begun;
      BeginThrifty(c, p);
    } else {
      hide Sum, AllWithin;
    }
  }

  /** Nothing was ever started, or refills are never spawned. */
  ghost predicate Frugal(c: Config, p: State) {
    && p.refills == [] && p.spawned == 0 && p.first <= c.initial
    && (c.low >= 1 ==> p.live == {} && p.offered == [] && !p.taken && p.first == 0)
  }

  lemma StepFrugal(c: Config, p: State, e: Event)
    requires Frugal(c, p) && Enabled(p, e) && p.count >= 0 && (c.low < 1 || c.initial == 0)
    ensures Frugal(c, Apply(c, p, e))
  {
  }

  lemma {:induction false} RunThrifty(c: Config, p: State, es: seq<Event>)
    requires Thrifty(c, p) && IsRun(c, p, es) && c.more <= 1
    ensures Thrifty(c, After(c, p, es))
    decreases |es|
  {
    hide Thrifty, Enabled, Apply;
    if es != [] {
      StepThrifty(c, p, es[0]);
      RunThrifty(c, Apply(c, p, es[0]), es[1..]);
    }
  }

  lemma {:induction false} RunFrugal(c: Config, p: State, es: seq<Event>)
    requires Inv(c, p) && Frugal(c, p) && IsRun(c, p, es) && (c.low < 1 || c.initial == 0)
    ensures Frugal(c, After(c, p, es))
    decreases |es|
  {
    assert p.count >= 0;
    hide Inv, Frugal, Enabled, Apply;
    if es != [] {
      StepKept(c, p, es[0]);
      StepFrugal(c, p, es[0]);
      RunFrugal(c, Apply(c, p, es[0]), es[1..]);
    }
  }

  predicate CanPileUp(c: Config) { c.low >= 1 && c.initial >= 1 && c.more >= 2 }

  /** Unless promises can pile up, there are never more of them than initial workers, however refills overlap. */
  lemma OtherwiseWithinInitial(c: Config, es: seq<Event>)
    requires !CanPileUp(c) && IsRun(c, NO_WORKERS, es)
    ensures Promised(After(c, NO_WORKERS, es)) <= c.initial
  {
    Condition(c);
    hide *;
    if c.more <= 1 {
      StartsThrifty(c);
      RunThrifty(c, NO_WORKERS, es);
      ThriftyBound(c, After(c, NO_WORKERS, es));
    } else {
      StartsCounted(c);
      StartsFrugal(c);
      RunFrugal(c, NO_WORKERS, es);
      FrugalBound(c, After(c, NO_WORKERS, es));
    }
  }

  lemma Condition(c: Config)
    ensures CanPileUp(c) <==> c.low >= 1 && c.initial >= 1 && c.more >= 2
  {
  }

  lemma ThriftyBound(c: Config, p: State)
    requires Thrifty(c, p)
    ensures Promised(p) <= c.initial
  {
    hide Sum, AllWithin;
  }

  lemma FrugalBound(c: Config, p: State)
    requires Frugal(c, p)
    ensures Promised(p) <= c.initial
  {
  }

  lemma StartsFrugal(c: Config)
    ensures Frugal(c, NO_WORKERS)
  {
  }

  lemma StartsThrifty(c: Config)
    ensures Thrifty(c, NO_WORKERS)
  {
    assert NO_WORKERS.live - NO_WORKERS.visited == {};
  }

  /** Some run comes to at least n promises. */
  ghost predicate CanPromise(c: Config, n: nat) {
    exists es :: IsRun(c, NO_WORKERS, es) && Promised(After(c, NO_WORKERS, es)) >= n
  }

  /**
   Promised workers are unbounded over all runs if and only if a low pool is ever
   refilled, it starts with a worker, and a refill brings more than the one it replaces.
   */
  lemma UnboundedExactly(c: Config)
    ensures (forall n: nat :: CanPromise(c, n)) <==> CanPileUp(c)
  {
    hide Promised, IsRun, After;
    if CanPileUp(c) {
      forall n: nat ensures CanPromise(c, n) {
        var es := PilesUp(c, n);
      }
    } else if CanPromise(c, c.initial + 1) {
      var es :| IsRun(c, NO_WORKERS, es) && Promised(After(c, NO_WORKERS, es)) >= c.initial + 1;
      OtherwiseWithinInitial(c, es);
      assert false;
    }
  }

  // ---- The pool as the program updates it in place -----------------------------------------

  class TcpShare {
    const config: Config
    var count: int
    var live: set<nat>
    var registered: set<nat>
    var nextId: nat
    ghost var given: seq<nat>
    var visited: set<nat>
    var offered: seq<nat>
    var taken: bool
    var started: bool
    var first: nat
    var refills: seq<nat>
    var spawned: nat
    var closing: bool

    ghost function View(): State
      reads this
    {
      State(count, live, registered, nextId, given, visited, offered, taken, started, first, refills, spawned, closing)
    }

    ghost predicate Valid()
      reads this
    {
      Inv(config, View())
    }

    constructor (config: Config)
      ensures Valid() && View() == NO_WORKERS && this.config == config
    {
      this.config := config;
      count, live, registered, nextId, given := 0, {}, {}, 0, [];
      visited, offered, taken := {}, [], false;
      started, first, refills, spawned, closing := false, 0, [], 0, false;
    }

    method NextWorkerId() returns (id: nat)
      modifies `nextId, `given
      ensures id == old(nextId) && nextId == id + 1 && given == old(given) + [id]
    {
      id := nextId;
      nextId := nextId + 1;
      given := given + [id];
    }

    /** The connection is up: a worker is made, started and put into the map. */
    method AddWorker() returns (id: nat)
      requires Valid()
      modifies `nextId, `given, `count, `live, `registered
      ensures Valid() && View() == WithWorker(old(View())) && id !in old(registered) && id in live
    {
      WorkerAdded(config, View());
      id := NextWorkerId();
      count := count + 1;
      live := live + {id};
      registered := registered + {id};
    }

    /** Drops the entries of dead workers, one at a time. */
    method CleanupWorkers()
      requires Valid()
      modifies `registered
      ensures Valid() && View() == CleanedUp(old(View()))
      ensures forall w: nat :: w in registered <==> w in old(registered) && w in live
    {
      var todo := registered;
      while todo != {}
        invariant todo <= registered <= old(registered)
        invariant forall w: nat :: w in old(registered) && w !in todo ==> (w in registered <==> w in live)
        decreases |todo|
      {
        var w :| w in todo;
        todo := todo - {w};
        if w !in live {
          registered := registered - {w};
        }
      }
      assert live <= registered;
    }

    /** A worker was visited: its tunnel goes into the queue, unless that is closed. */
    method OnVisited(w: nat)
      requires Valid() && w in live && w !in visited
      modifies `visited, `offered
      ensures Valid() && View() == Apply(config, old(View()), Visit(w))
      ensures offered == if closing then old(offered) else old(offered) + [w]
    {
      visited := visited + {w};
      if !closing {
        offered := offered + [w];
      }
    }

    /** The accept loop gets the next tunnel, and looks at the pool. */
    method GetSocket() returns (w: nat)
      requires Valid() && offered != [] && !taken
      modifies `offered, `taken, `spawned
      ensures Valid() && old(offered) == [w] + offered
      ensures View() == Apply(config, Apply(config, old(View()), Take), Check)
    {
      w := offered[0];
      offered := offered[1..];
      taken := true;
      ChkNeedWorkers();
    }

    method ChkNeedWorkers()
      requires Valid() && taken
      modifies `taken, `spawned
      ensures Valid() && View() == Apply(config, old(View()), Check)
    {
      taken := false;
      if count < config.low {
        spawned := spawned + 1;
      }
    }

    method ChkNeedWorkersCoro()
      requires Valid() && spawned > 0
      modifies this
      ensures Valid() && View() == Begun(config, old(View()))
    {
      BeginKept(config, View());
      spawned := spawned - 1;
      if closing {
        return;
      }
      if count < config.low {
        CleanupWorkers();
        if config.more > 0 {
          refills := refills + [config.more];
        }
      }
    }

    /** Refill number i is connected once more. */
    method OnConnected(i: nat)
      requires Valid() && i < |refills|
      modifies this
      ensures old(refills[i] > 0) && Valid() && View() == Apply(config, old(View()), AddRefill(i))
    {
      StepKept(config, View(), AddRefill(i));
      var id := AddWorker();
      if refills[i] == 1 {
        refills := Without(refills, i);
      } else {
        refills := refills[i := refills[i] - 1];
      }
    }

    method OnWorkerDestroyed(w: nat)
      requires Valid() && w in live && w !in offered
      modifies this
      ensures Valid() && View() == Apply(config, old(View()), Dies(w))
    {
      live := live - {w};
      count := count - 1;
    }
  }
}

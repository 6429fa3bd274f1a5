/**
 A forwarder pairs every socket it accepts downstream with one socket from
 upstream, and gives each pair a pipe with a fresh number; a downstream socket whose
 upstream fails is closed.  Sockets are named by numbers.
 */
module Forwarder {

  /** What became of an accepted socket: waiting for upstream, paired, in a pipe, or closed. */
  datatype Job = Connecting | Connected(up: nat) | InPipe(id: nat) | Dropped

  datatype Fwd = Fwd(jobs: map<nat, Job>, nextId: nat, pipes: map<nat, (nat, nat)>)

  const NO_PIPES := Fwd(map[], 0, map[])

  function Accepted(f: Fwd, d: nat): Fwd { f.(jobs := f.jobs[d := Connecting]) }

  predicate Waits(f: Fwd, d: nat) { d in f.jobs && f.jobs[d].Connecting? }

  predicate Paired(f: Fwd, d: nat) { d in f.jobs && f.jobs[d].Connected? }

  function Upstream(f: Fwd, d: nat, u: nat): Fwd { f.(jobs := f.jobs[d := Connected(u)]) }

  function UpstreamFailed(f: Fwd, d: nat): Fwd { f.(jobs := f.jobs[d := Dropped]) }

  function Registered(f: Fwd, d: nat): Fwd
    requires Paired(f, d)
  {
    f.(jobs := f.jobs[d := InPipe(f.nextId)], nextId := f.nextId + 1,
       pipes := f.pipes[f.nextId := (d, f.jobs[d].up)])
  }

  /** Pipe numbers are those given out so far, and a pipe and its accepted socket name each other. */
  ghost predicate FwdInv(f: Fwd) {
    && (forall id: nat :: id in f.pipes <==> id < f.nextId)
    && (forall id: nat :: id in f.pipes ==> f.pipes[id].0 in f.jobs && f.jobs[f.pipes[id].0] == InPipe(id))
    && (forall d: nat :: d in f.jobs && f.jobs[d].InPipe? ==> f.jobs[d].id in f.pipes && f.pipes[f.jobs[d].id].0 == d)
  }

  predicate HasUpstream(f: Fwd, d: nat, u: nat) {
    && d in f.jobs
    && (|| f.jobs[d] == Connected(u)
        || (f.jobs[d].InPipe? && f.jobs[d].id in f.pipes && f.pipes[f.jobs[d].id] == (d, u)))
  }

  lemma StepsKept(f: Fwd, d: nat, u: nat)
    requires FwdInv(f)
    ensures d !in f.jobs ==> FwdInv(Accepted(f, d))
    ensures Waits(f, d) ==> FwdInv(Upstream(f, d, u)) && FwdInv(UpstreamFailed(f, d))
    ensures Paired(f, d) ==> FwdInv(Registered(f, d)) && f.nextId !in f.pipes
  {
    AcceptedKept(f, d);
    UpstreamKept(f, d, u);
    RegisteredKept(f, d);
  }

  lemma AcceptedKept(f: Fwd, d: nat)
    requires FwdInv(f)
    ensures d !in f.jobs ==> FwdInv(Accepted(f, d))
  {
  }

  lemma UpstreamKept(f: Fwd, d: nat, u: nat)
    requires FwdInv(f)
    ensures Waits(f, d) ==> FwdInv(Upstream(f, d, u)) && FwdInv(UpstreamFailed(f, d))
  {
  }

  lemma RegisteredKept(f: Fwd, d: nat)
    requires FwdInv(f)
    ensures Paired(f, d) ==> FwdInv(Registered(f, d)) && f.nextId !in f.pipes
  {
  }

  /** A step on one socket leaves every other socket its upstream, and only Upstream gives one. */
  lemma UpstreamsKept(f: Fwd, d: nat, u: nat, d': nat, u': nat)
    requires FwdInv(f)
    ensures d !in f.jobs ==> (HasUpstream(Accepted(f, d), d', u') <==> HasUpstream(f, d', u'))
    ensures Waits(f, d) ==>
              && (HasUpstream(UpstreamFailed(f, d), d', u') <==> HasUpstream(f, d', u'))
              && (HasUpstream(Upstream(f, d, u), d', u') <==> HasUpstream(f, d', u') || (d', u') == (d, u))
    ensures Paired(f, d) ==> (HasUpstream(Registered(f, d), d', u') <==> HasUpstream(f, d', u'))
  {
  }

  /** A pipe joins an accepted socket with the upstream it has, and no accepted socket is in two pipes. */
  lemma PipesJoin(f: Fwd, id: nat, id': nat)
    requires FwdInv(f) && id in f.pipes && id' in f.pipes
    ensures HasUpstream(f, f.pipes[id].0, f.pipes[id].1)
    ensures f.pipes[id].0 == f.pipes[id'].0 ==> id == id'
  {
  }

  class Forwarder {
    var jobs: map<nat, Job>
    var nextPipeId: nat
    var pipes: map<nat, (nat, nat)>

    ghost function View(): Fwd
      reads this
    {
      Fwd(jobs, nextPipeId, pipes)
    }

    ghost predicate Valid()
      reads this
    {
      FwdInv(View())
    }

    constructor ()
      ensures Valid() && View() == NO_PIPES
    {
      jobs, nextPipeId, pipes := map[], 0, map[];
    }

    method NextPipeId() returns (id: nat)
      modifies `nextPipeId
      ensures id == old(nextPipeId) && nextPipeId == id + 1
    {
      id := nextPipeId;
      nextPipeId := nextPipeId + 1;
    }

    /** The accept loop got a new socket and starts to handle it. */
    method Accept(d: nat)
      requires Valid() && d !in jobs
      modifies this
      ensures Valid() && View() == Accepted(old(View()), d)
    {
      AcceptedKept(View(), d);
      jobs := jobs[d := Connecting];
    }

    method OnUpstream(d: nat, u: nat)
      requires Valid() && Waits(View(), d)
      modifies this
      ensures Valid() && View() == Upstream(old(View()), d, u)
    {
      UpstreamKept(View(), d, u);
      jobs := jobs[d := Connected(u)];
    }

    method OnUpstreamError(d: nat)
      requires Valid() && Waits(View(), d)
      modifies this
      ensures Valid() && View() == UpstreamFailed(old(View()), d) && jobs[d].Dropped? && pipes == old(pipes)
    {
      UpstreamKept(View(), d, 0);
      jobs := jobs[d := Dropped];
    }

    /** On the strand of the pipes: a fresh number, and the pipe under it. */
    method Register(d: nat) returns (id: nat)
      requires Valid() && Paired(View(), d)
      modifies this
      ensures Valid() && View() == Registered(old(View()), d)
      ensures id !in old(pipes) && id in pipes && pipes[id] == (d, old(jobs[d]).up)
    {
      RegisteredKept(View(), d);
      id := NextPipeId();
      pipes := pipes[id := (d, jobs[d].up)];
      jobs := jobs[d := InPipe(id)];
    }
  }
}

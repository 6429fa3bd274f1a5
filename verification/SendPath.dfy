/**
 How a server worker's messages reach the wire: the receiving coroutine and the
 visit hand messages over through a rendezvous queue to the one sending
 coroutine, which waits, writes what it got, and waits again.
 */
module SendPath {
  import opened Seqs
  import opened WaitQueue
  import opened Messages

  /** The coroutines of a server worker, as completion handlers of the queue. */
  datatype Who = Receiver | Sender | Visitor

  /** `wired` counts the messages the sender has written to the socket. */
  datatype Path = Path(q: State<Who, Msg>, wired: nat, senderAlive: bool)

  function Start(): Path {
    Path(PostWait(Empty(), Sender), 0, true)
  }

  function Handed(p: Path, who: Who, m: Msg): Path {
    p.(q := PostProvide(p.q, who, m))
  }

  function Closed(p: Path): Path {
    p.(q := Close(p.q))
  }

  function Ran(p: Path): Path
    requires p.q.posted != []
  {
    p.(q := RunTask(p.q, 0))
  }

  /** The sender resumes when its latest wait, number `wired`, has got a value. */
  predicate CanSend(p: Path) {
    p.senderAlive && p.wired < |p.q.got| && p.wired < |p.q.values|
  }

  function NextMessage(p: Path): Msg
    requires CanSend(p)
  {
    p.q.values[p.wired]
  }

  function Sent(p: Path): Path
    requires CanSend(p)
  {
    p.(q := PostWait(p.q, Sender), wired := p.wired + 1)
  }

  /** The sender ends when its latest wait was aborted. */
  predicate SenderAborted(p: Path) {
    p.senderAlive && p.wired == |p.q.got| && p.q.abortedWaits != []
  }

  /** The sender has a message to write, and the socket is closed: the write fails. */
  predicate WriteFails(p: Path, alive: bool) { CanSend(p) && !alive }

  function SenderEnded(p: Path): Path { p.(senderAlive := false) }

  /** Call number k of provide() has completed without error. */
  predicate Served(p: Path, k: nat) { k < |p.q.served| }

  /** The messages handed over and not yet written, in the order they were handed over. */
  function Outbox(p: Path): seq<Msg> {
    if p.wired <= CallCount(p) then Seconds(p.q.calledProvides)[p.wired..] else []
  }

  /** What the queue of a send path keeps, whatever is called on it or run in it next. */
  ghost predicate QueueInv(q: State<Who, Msg>) {
    && Rendezvous(q) && Drained(q) && InCallOrder(q)
    && (forall h: Who :: WaitAccounted(q, h))
  }

  ghost predicate PathInv(p: Path) {
    && QueueInv(p.q)
    && (forall h <- p.q.calledWaits :: h == Sender)
    && |p.q.calledWaits| == p.wired + 1
    && p.wired <= |p.q.got|
    && (!p.senderAlive ==> p.q.abortedWaits != [] || p.q.closed)
  }

  /** The sender is as it was, and what it ends by stays: an aborted wait, or a closed queue. */
  ghost predicate SenderStays(p: Path, p': Path) {
    && p'.senderAlive == p.senderAlive
    && (p.q.abortedWaits != [] ==> p'.q.abortedWaits != []) && (p.q.closed ==> p'.q.closed)
  }

  lemma Bounds(p: Path)
    requires PathInv(p)
    ensures p.wired <= |p.q.got| == |p.q.values| == |p.q.served| <= |p.q.calledProvides|
    ensures |p.q.got| <= p.wired + 1
    ensures p.q.served <= p.q.calledProvides
    ensures forall k :: 0 <= k < |p.q.values| ==> p.q.values[k] == p.q.calledProvides[k].1
  {
  }

  lemma StartInv()
    ensures PathInv(Start()) && Outbox(Start()) == [] && CallCount(Start()) == 0
  {
  }

  /** How many times provide() was called. */
  function CallCount(p: Path): nat { |p.q.calledProvides| }

  lemma QueueKept(q: State<Who, Msg>, e: Event<Who, Msg>)
    requires QueueInv(q) && Enabled(q, e) && (e.Run? ==> e.i == 0)
    ensures QueueInv(Apply(q, e))
  {
    hide WaitAccounted, Rendezvous, Drained, InCallOrder, Apply;
    ApplyMeets(q, e);
    if e.Run? {
      RunInCallOrder(q);
    } else {
      PostKeepsCallOrder(q, e);
    }
    forall h: Who ensures WaitAccounted(Apply(q, e), h) {
      ApplyAccountsWait(q, e, h);
    }
  }

  lemma RunInCallOrder(q: State<Who, Msg>)
    requires InCallOrder(q) && q.posted != []
    ensures InCallOrder(Apply(q, Run(0)))
  {
    hide InCallOrder, RunTask;
    RunKeepsCallOrder(q);
  }

  lemma SecondsAppend(s: seq<(Who, Msg)>, who: Who, m: Msg, n: nat)
    requires n <= |s|
    ensures Seconds(s + [(who, m)])[n..] == Seconds(s)[n..] + [m]
  {
  }

  lemma HandedInv(p: Path, who: Who, m: Msg)
    requires PathInv(p)
    ensures p.wired <= CallCount(p)
    ensures PathInv(Handed(p, who, m)) && Handed(p, who, m).wired == p.wired && SenderStays(p, Handed(p, who, m))
    ensures Outbox(Handed(p, who, m)) == Outbox(p) + [m] && CallCount(Handed(p, who, m)) == CallCount(p) + 1
  {
    Bounds(p);
    QueueKept(p.q, CallProvide(who, m));
    assert Apply(p.q, CallProvide(who, m)) == PostProvide(p.q, who, m);
    hide QueueInv, Apply, Seconds;
    SecondsAppend(p.q.calledProvides, who, m, p.wired);
  }

  lemma ClosedInv(p: Path)
    requires PathInv(p)
    ensures p.wired <= CallCount(p)
    ensures PathInv(Closed(p)) && Outbox(Closed(p)) == Outbox(p) && CallCount(Closed(p)) == CallCount(p)
    ensures SenderStays(p, Closed(p)) && Closed(p).q.closed
  {
    Bounds(p);
    QueueKept(p.q, CallClose);
    assert Apply(p.q, CallClose) == Close(p.q);
    hide WaitAccounted, Rendezvous, Drained, InCallOrder, Apply;
  }

  lemma RanInv(p: Path)
    requires PathInv(p) && p.q.posted != []
    ensures p.wired <= CallCount(p)
    ensures PathInv(Ran(p)) && Outbox(Ran(p)) == Outbox(p) && CallCount(Ran(p)) == CallCount(p)
    ensures |p.q.served| <= |Ran(p).q.served| && SenderStays(p, Ran(p))
  {
    Bounds(p);
    QueueKept(p.q, Run(0));
    RunOnlyCompletes(p.q);
    assert Apply(p.q, Run(0)) == RunTask(p.q, 0);
    hide WaitAccounted, Rendezvous, Drained, InCallOrder, Apply, RunTask;
  }

  /** Running a task changes no history of calls and takes no completion back. */
  lemma RunOnlyCompletes(s: State<Who, Msg>)
    requires s.posted != []
    ensures var t := RunTask(s, 0);
            && t.calledWaits == s.calledWaits && t.calledProvides == s.calledProvides
            && |s.got| <= |t.got| && |s.served| <= |t.served| && |s.abortedWaits| <= |t.abortedWaits|
            && t.closed == s.closed
  {
  }

  /** The sender writes the oldest message of the outbox. */
  lemma SentInv(p: Path)
    requires PathInv(p) && CanSend(p)
    ensures Outbox(p) != [] && NextMessage(p) == Outbox(p)[0]
    ensures PathInv(Sent(p)) && Outbox(Sent(p)) == Outbox(p)[1..] && CallCount(Sent(p)) == CallCount(p)
    ensures Sent(p).q.served == p.q.served && SenderStays(p, Sent(p))
  {
    Bounds(p);
    QueueKept(p.q, CallWait(Sender));
    assert Apply(p.q, CallWait(Sender)) == PostWait(p.q, Sender);
    hide WaitAccounted, Rendezvous, Drained, InCallOrder, Apply;
  }

  lemma {:induction false} AllOccur<T>(s: seq<T>, x: T)
    requires forall y <- s :: y == x
    ensures multiset(s)[x] == |s|
  {
    if s != [] {
      assert forall y <- s[1..] :: y in s;
      AllOccur(s[1..], x);
      assert s[0] in s && s == [s[0]] + s[1..];
    }
  }

  /** A sender whose wait was aborted has written everything that was served: nothing handed over in time is dropped. */
  lemma AbortedSenderLeavesNothing(p: Path)
    requires PathInv(p) && p.q.abortedWaits != []
    ensures |p.q.served| <= p.wired
    ensures !CanSend(p)
  {
    Bounds(p);
    var s := p.q;
    AllOccur(s.calledWaits, Sender);
    assert s.got <= s.waits <= s.calledWaits;
    assert forall h <- s.got :: h == Sender by {
      forall h | h in s.got ensures h == Sender { assert h in s.calledWaits; }
    }
    AllOccur(s.got, Sender);
    forall h | h in s.abortedWaits ensures h == Sender {
      assert h in multiset(s.abortedWaits) && WaitAccounted(s, h);
      assert h in multiset(s.calledWaits) && h in s.calledWaits;
    }
    AllOccur(s.abortedWaits, Sender);
    assert WaitAccounted(s, Sender);
  }

  lemma SenderEndedInv(p: Path)
    requires PathInv(p)
    ensures p.q.abortedWaits != [] || p.q.closed ==> PathInv(SenderEnded(p))
    ensures Outbox(SenderEnded(p)) == Outbox(p) && CallCount(SenderEnded(p)) == CallCount(p)
    ensures SenderEnded(Closed(p)) == Closed(SenderEnded(p))
  {
  }

  /** Once every call was served, the sender lives and can write as long as there is anything to write. */
  lemma ServedIsWritten(p: Path)
    requires PathInv(p) && |p.q.served| == CallCount(p) && (p.senderAlive || p.q.abortedWaits != [])
    ensures CanSend(p) <==> Outbox(p) != []
    ensures SenderAborted(p) ==> Outbox(p) == []
  {
    Bounds(p);
    if p.q.abortedWaits != [] {
      AbortedSenderLeavesNothing(p);
    }
  }
}

/**
 Copying bytes between two sockets, one coroutine for each direction.  A peer that
 stops sending, or that is gone, ends one direction only; any other failure closes
 both sockets.
 */
module Pipe {
  import opened Seqs
  import opened Framing

  const PIPE_BUFFER := 8192

  datatype Failure = Eof | NotConnected | ConnectionReset | OtherError

  datatype ReadResult = Data(bs: Bytes) | Failed(e: Failure)

  /** A connected socket that can fail at any time; end of file comes only after the last byte. */
  class Stream {
    var incoming: Bytes
    var outgoing: Bytes
    var open: bool
    var shut: bool
    /** What reads and writes failed with so far. */
    ghost var readFailures: seq<Failure>
    ghost var writeFailures: seq<Failure>

    method ReadSome(max: nat) returns (r: ReadResult)
      requires 0 < max
      modifies `incoming, `readFailures
      ensures r.Data? ==> 1 <= |r.bs| <= max && old(incoming) == r.bs + incoming
      ensures r.Failed? ==> incoming == old(incoming) && (r.e.Eof? ==> incoming == [])
      ensures readFailures == old(readFailures) + if r.Failed? then [r.e] else []
    {
      if {
        case incoming == [] => r := Failed(Eof);
        case incoming != [] =>
          var n: nat :| 1 <= n <= max && n <= |incoming|;
          r := Data(incoming[..n]);
          incoming := incoming[n..];
        case true => r := Failed(NotConnected);
        case true => r := Failed(ConnectionReset);
        case true => r := Failed(OtherError);
      }
      readFailures := readFailures + if r.Failed? then [r.e] else [];
    }

    /** Writes all of bs, or fails after writing the first n bytes. */
    method Write(bs: Bytes) returns (n: nat, failed: Option<Failure>)
      modifies `outgoing, `writeFailures
      ensures n <= |bs| && outgoing == old(outgoing) + bs[..n]
      ensures failed.None? ==> n == |bs|
      ensures failed != Some(Eof)
      ensures writeFailures == old(writeFailures) + if failed.Some? then [failed.value] else []
    {
      n :| n <= |bs|;
      outgoing := outgoing + bs[..n];
      failed := None;
      if {
        case n == |bs| =>
        case true => failed := Some(NotConnected);
        case true => failed := Some(ConnectionReset);
        case true => failed := Some(OtherError);
      }
      writeFailures := writeFailures + if failed.Some? then [failed.value] else [];
    }

    /** Forwards an end of file, if the socket is still there. */
    method ShutdownSend()
      modifies `shut
      ensures shut == (old(shut) || open)
    {
      if open {
        shut := true;
      }
    }

    method Close()
      modifies `open
      ensures !open
    {
      open := false;
    }
  }

  /** How a direction ended, and the bytes it had read and could not write. */
  datatype Ending = AtEof | PeerGone(hand: Bytes) | Broken(hand: Bytes)

  /** The failures that mean that the peer stopped sending, or is gone. */
  predicate OfPeer(f: Failure) { f == Eof || f == NotConnected || f == ConnectionReset }

  function InHand(x: Ending): Bytes { if x.AtEof? then [] else x.hand }

  class Pipe {
    const lhs: Stream
    const rhs: Stream
    var stopping: bool

    constructor (lhs: Stream, rhs: Stream)
      ensures this.lhs == lhs && this.rhs == rhs && !stopping
    {
      this.lhs, this.rhs, stopping := lhs, rhs, false;
    }

    method TryStop()
      modifies `stopping, lhs`open, rhs`open
      ensures stopping && !lhs.open && !rhs.open
    {
      stopping := true;
      if lhs.open {
        lhs.Close();
      }
      if rhs.open {
        rhs.Close();
      }
    }

    method HandleError()
      modifies `stopping, lhs`open, rhs`open
      ensures stopping
      ensures !old(stopping) ==> !lhs.open && !rhs.open
      ensures old(stopping) ==> lhs.open == old(lhs.open) && rhs.open == old(rhs.open)
    {
      if !stopping {
        TryStop();
      }
    }

    /**
     One turn of the loop: a chunk that fits the buffer is read and written.  None if
     that went well; otherwise how it failed, and what is left of the chunk.
     */
    method CopyChunk(from: Stream, to: Stream) returns (failed: Option<Failure>, hand: Bytes, ghost written: Bytes)
      requires from != to
      modifies from`incoming, to`outgoing, from`readFailures, to`writeFailures
      ensures to.outgoing == old(to.outgoing) + written
      ensures failed.None? ==> from.readFailures == old(from.readFailures) && to.writeFailures == old(to.writeFailures)
      ensures failed.Some? ==> FailedOnce(from, to, old(from.readFailures), old(to.writeFailures), failed.value)
      ensures old(from.incoming) == written + (hand + from.incoming) && |hand| <= PIPE_BUFFER
      ensures failed.None? ==> hand == [] && written != []
      ensures failed == Some(Eof) ==> hand == [] && from.incoming == []
    {
      var r := from.ReadSome(PIPE_BUFFER);
      if r.Failed? {
        return Some(r.e), [], [];
      }
      var n, e := to.Write(r.bs);
      assert r.bs == r.bs[..n] + r.bs[n..];
      return e, r.bs[n..], r.bs[..n];
    }

    /** The handler of a failure with f, when `hand` was read and not written. */
    method OnFailure(to: Stream, f: Failure, hand: Bytes) returns (x: Ending)
      modifies to`shut, `stopping, lhs`open, rhs`open
      ensures x == if f == Eof then AtEof else if OfPeer(f) then PeerGone(hand) else Broken(hand)
      ensures OfPeer(f) ==>
                && to.shut == (old(to.shut) || to.open) && stopping == old(stopping)
                && lhs.open == old(lhs.open) && rhs.open == old(rhs.open)
      ensures !OfPeer(f) ==>
                && to.shut == old(to.shut) && stopping
                && (if old(stopping) then lhs.open == old(lhs.open) && rhs.open == old(rhs.open)
                    else !lhs.open && !rhs.open)
    {
      if f.OtherError? {
        HandleError();
        return Broken(hand);
      }
      to.ShutdownSend();
      x := if f.Eof? then AtEof else PeerGone(hand);
    }

    /** Since then, one read or one write failed, with f. */
    static ghost predicate FailedOnce(from: Stream, to: Stream, rs: seq<Failure>, ws: seq<Failure>, f: Failure)
      reads from, to
    {
      || (from.readFailures == rs + [f] && to.writeFailures == ws)
      || (from.readFailures == rs && to.writeFailures == ws + [f] && f != Eof)
    }

    /**
     What was read is what was written and the chunk in hand, which fits the buffer.
     The one failure that ends the loop decides what becomes of the pipe.  A peer that
     stopped sending or is gone has an end of file forwarded, behind everything written,
     and leaves the pipe and the opposite direction of both sockets alone; after any other
     failure the pipe is stopping, and its sockets are closed.
     */
    method HalfPipe(from: Stream, to: Stream) returns (x: Ending, ghost copied: Bytes, ghost cause: Failure)
      requires from != to && (from == lhs || from == rhs) && (to == lhs || to == rhs)
      modifies from`incoming, to`outgoing, from`readFailures, to`writeFailures, to`shut, `stopping, from`open, to`open
      ensures to.outgoing == old(to.outgoing) + copied
      ensures old(from.incoming) == copied + (InHand(x) + from.incoming) && |InHand(x)| <= PIPE_BUFFER
      ensures FailedOnce(from, to, old(from.readFailures), old(to.writeFailures), cause)
      ensures x.AtEof? <==> cause == Eof
      ensures x.PeerGone? <==> cause == NotConnected || cause == ConnectionReset
      ensures x.Broken? <==> cause == OtherError
      ensures x.AtEof? ==> from.incoming == [] && copied == old(from.incoming)
      ensures !x.Broken? ==>
                && to.shut == (old(to.shut) || to.open) && stopping == old(stopping)
                && from.open == old(from.open) && to.open == old(to.open)
      ensures x.Broken? ==>
                && to.shut == old(to.shut) && stopping
                && (if old(stopping) then from.open == old(from.open) && to.open == old(to.open)
                    else !from.open && !to.open)
    {
      copied := [];
      while true
        invariant to.shut == old(to.shut) && stopping == old(stopping)
        invariant from.readFailures == old(from.readFailures) && to.writeFailures == old(to.writeFailures)
        invariant from.open == old(from.open) && to.open == old(to.open)
        invariant to.outgoing == old(to.outgoing) + copied && old(from.incoming) == copied + from.incoming
        decreases |from.incoming|
      {
        var failed, hand, written := CopyChunk(from, to);
        Split(copied, written, hand + from.incoming);
        Split(old(to.outgoing), copied, written);
        copied := copied + written;
        if failed.Some? {
          x := OnFailure(to, failed.value, hand);
          return x, copied, failed.value;
        }
      }
    }
  }

  lemma Split(a: Bytes, b: Bytes, c: Bytes)
    ensures a + (b + c) == (a + b) + c
  {
  }
}

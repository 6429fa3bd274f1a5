/**
 Control messages on a byte stream: an eight-byte big-endian length, then that
 many bytes of payload.  Receiving takes the stream in fragments whose sizes the
 network chooses, and takes nothing beyond the frame.
 */
module Framing {
  import opened Codec
  import opened Seqs

  type Bytes = seq<SChar>

  const MAX_PAYLOAD := 8192
  const CHUNK := 4096

  /** A connected socket: the bytes still to arrive before the peer's end of file, and those written so far. */
  class Socket {
    var incoming: Bytes
    var outgoing: Bytes

    constructor (incoming: Bytes)
      ensures this.incoming == incoming && outgoing == []
    {
      this.incoming := incoming;
      outgoing := [];
    }

    /** Reads at least one and at most max bytes; how many is up to the network.  None at end of file. */
    method ReadSome(max: nat) returns (r: Option<Bytes>)
      requires 0 < max
      modifies `incoming
      ensures r.None? <==> old(incoming) == []
      ensures r.None? ==> incoming == []
      ensures r.Some? ==> 1 <= |r.value| <= max && old(incoming) == r.value + incoming
    {
      if incoming == [] {
        return None;
      }
      var n: nat :| 1 <= n <= max && n <= |incoming|;
      r := Some(incoming[..n]);
      incoming := incoming[n..];
    }

    /** Reads exactly n bytes, in as many fragments as it takes; at end of file what came before it is lost. */
    method ReadExactly(n: nat) returns (r: Option<Bytes>)
      modifies `incoming
      ensures n <= |old(incoming)| ==> r == Some(old(incoming)[..n]) && incoming == old(incoming)[n..]
      ensures n > |old(incoming)| ==> r == None && incoming == []
    {
      var acc: Bytes := [];
      while |acc| < n
        invariant |acc| <= n && old(incoming) == acc + incoming
        decreases n - |acc|
      {
        var part := ReadSome(n - |acc|);
        if part.None? {
          return None;
        }
        acc := acc + part.value;
      }
      r := Some(acc);
    }

    method Write(bs: Bytes)
      modifies `outgoing
      ensures outgoing == old(outgoing) + bs
    {
      outgoing := outgoing + bs;
    }
  }

  datatype Received = Payload(bytes: Bytes) | TooBig(len: UInt64) | EndOfStream

  function Header(p: Bytes): Buffer { Put(Big, |p| % 0x1_0000_0000_0000_0000) }

  function Frame(p: Bytes): Bytes { Header(p) + p }

  /** What receiving one message from s yields, and the bytes it leaves unread. */
  function Receive(s: Bytes): (Received, Bytes) {
    if |s| < 8 then (EndOfStream, [])
    else
      var len := Extract(Big, s[..8]);
      var rest := s[8..];
      if len > MAX_PAYLOAD then (TooBig(len), rest)
      else if len > |rest| then (EndOfStream, [])
      else (Payload(rest[..len]), rest[len..])
  }

  method SendMsg(s: Socket, payload: Bytes)
    modifies s`outgoing
    ensures s.outgoing == old(s.outgoing) + Frame(payload)
  {
    var meta := new SChar[8];
    PutUint64(Big, meta, |payload| % 0x1_0000_0000_0000_0000);
    s.Write(meta[..] + payload);
  }

  method RecvMsg(s: Socket) returns (r: Received)
    modifies s`incoming
    ensures (r, s.incoming) == Receive(old(s.incoming))
  {
    hide Extract, Put;
    ghost var whole := s.incoming;
    var meta := s.ReadExactly(8);
    if meta.None? {
      return EndOfStream;
    }
    var len := Extract(Big, meta.value);
    if len > MAX_PAYLOAD {
      return TooBig(len);
    }
    var parsed: Bytes := [];
    var remain: nat := len;
    while remain > CHUNK
      invariant |parsed| + remain == len && parsed + s.incoming == whole[8..]
      decreases remain
    {
      var part := s.ReadSome(CHUNK);
      if part.None? {
        return EndOfStream;
      }
      parsed := parsed + part.value;
      remain := remain - |part.value|;
    }
    if remain > 0 {
      var part := s.ReadExactly(remain);
      if part.None? {
        return EndOfStream;
      }
      parsed := parsed + part.value;
    }
    assert parsed == whole[8..][..len] && s.incoming == whole[8..][len..];
    r := Payload(parsed);
  }

  /** A frame is received as its payload, and nothing after it is touched, exactly when it is not too big. */
  lemma ReceiveFrame(p: Bytes, tail: Bytes)
    requires |p| < 0x1_0000_0000_0000_0000
    ensures Receive(Frame(p) + tail) == (Payload(p), tail) <==> |p| <= MAX_PAYLOAD
    ensures |p| > MAX_PAYLOAD ==> Receive(Frame(p) + tail) == (TooBig(|p|), p + tail)
  {
    hide Extract, Put;
    var s := Frame(p) + tail;
    ExtractPut(Big, |p|);
    assert s[..8] == Header(p);
    assert s[8..] == p + tail;
  }

  /** Only a frame is received as a payload: the bytes taken are the frame, byte for byte. */
  lemma ReceiveOnlyFrames(s: Bytes)
    requires Receive(s).0.Payload?
    ensures var (r, rest) := Receive(s); s == Frame(r.bytes) + rest && |r.bytes| <= MAX_PAYLOAD
  {
    hide Extract, Put;
    PutExtract(Big, s[..8]);
    assert s == s[..8] + s[8..];
  }

  /** The stream ends inside a frame that would have been received. */
  ghost predicate CutFrame(s: Bytes) { exists p, q :: q != [] && |p| <= MAX_PAYLOAD && s + q == Frame(p) }

  lemma CutIsEnd(s: Bytes, p: Bytes, q: Bytes)
    requires |s| >= 8 && q != [] && |p| <= MAX_PAYLOAD && s + q == Frame(p)
    ensures Receive(s) == (EndOfStream, [])
  {
    hide Extract, Put;
    ExtractPut(Big, |p|);
    assert s[..8] == (s + q)[..8] == Header(p);
    assert |s| + |q| == 8 + |p|;
  }

  lemma EndIsCut(s: Bytes)
    requires |s| >= 8 && Receive(s).0.EndOfStream?
    ensures CutFrame(s)
  {
    hide Extract, Put;
    PutExtract(Big, s[..8]);
    var n := Extract(Big, s[..8]);
    var q: Bytes := seq(n - |s[8..]|, _ => 0);
    var p := s[8..] + q;
    assert s + q == s[..8] + p == Frame(p);
  }

  /** What is not received: an end of the stream in front of or inside a frame, or a length over the limit. */
  lemma ReceiveFailsExactly(s: Bytes)
    ensures var (r, rest) := Receive(s);
            && (r.EndOfStream? <==> |s| < 8 || CutFrame(s)) && (r.EndOfStream? ==> rest == [])
            && (r.TooBig? <==> |s| >= 8 && Extract(Big, s[..8]) > MAX_PAYLOAD)
            && (r.TooBig? ==> r.len == Extract(Big, s[..8]) && rest == s[8..])
  {
    hide Extract, Put, Frame;
    if |s| >= 8 {
      if Receive(s).0.EndOfStream? {
        EndIsCut(s);
      }
      if CutFrame(s) {
        var p, q :| q != [] && |p| <= MAX_PAYLOAD && s + q == Frame(p);
        CutIsEnd(s, p, q);
      }
    }
  }

  /** n calls of receive, stopping at the first that fails. */
  function ReceiveMany(s: Bytes, n: nat): (seq<Bytes>, Bytes) {
    if n == 0 then ([], s)
    else
      match Receive(s)
      case (Payload(p), rest) => var (ps, tail) := ReceiveMany(rest, n - 1); ([p] + ps, tail)
      case (_, rest) => ([], rest)
  }

  function Frames(ps: seq<Bytes>): Bytes {
    if ps == [] then [] else Frame(ps[0]) + Frames(ps[1..])
  }

  lemma ReceiveOneMore(p: Bytes, ps: seq<Bytes>, rest: Bytes, tail: Bytes)
    requires |p| <= MAX_PAYLOAD && ReceiveMany(rest, |ps|) == (ps, tail)
    ensures ReceiveMany(Frame(p) + rest, |ps| + 1) == ([p] + ps, tail)
  {
    assert |p| < 0x1_0000_0000_0000_0000;
    ReceiveFrame(p, rest);
    hide Receive, Frame;
  }

  /**
   Any list of payloads within the limit, followed by any raw bytes, is received as sent, and
   the raw bytes are left.
   */
  lemma {:induction false} StreamRoundTrip(ps: seq<Bytes>, tail: Bytes)
    requires forall p <- ps :: |p| <= MAX_PAYLOAD
    ensures ReceiveMany(Frames(ps) + tail, |ps|) == (ps, tail)
  {
    hide Receive, Frame, ReceiveMany;
    if ps == [] {
      NoneReceived(Frames(ps) + tail);
      assert Frames(ps) + tail == tail;
    } else {
      var rest := Frames(ps[1..]) + tail;
      assert Frames(ps) + tail == Frame(ps[0]) + rest;
      assert ps[0] in ps && forall p <- ps[1..] :: p in ps;
      StreamRoundTrip(ps[1..], tail);
      ReceiveOneMore(ps[0], ps[1..], rest, tail);
      assert [ps[0]] + ps[1..] == ps;
    }
  }

  lemma NoneReceived(s: Bytes)
    ensures ReceiveMany(s, 0) == ([], s)
  {
  }
}

/**
 The control messages, their JSON objects, and their bytes on the wire.  A
 message is an object of its fields, tagged with the name of its type.
 */
module Messages {
  import opened Json
  import opened JsonReader
  import opened Codec
  import opened Framing
  import opened Seqs

  type Int32 = n: int | -0x8000_0000 <= n < 0x8000_0000

  type Port = n: int | 0 <= n < 0x1_0000

  datatype ShareSpec = ShareSpec(id: string, port: Port)

  datatype Endpoint = Endpoint(ip: string, port: Port)

  datatype Msg =
    | ServerHello(version: Int32, welcome: string)
    | Pong
    | VisitTcpShare(epoch: Uint64, peer: Endpoint)
    | ClientHello(version: Int32, clientUuid: string, tcpShares: seq<ShareSpec>)
    | WorkerHello(tcpShareId: string, workerId: Int32)
    | Ping
    | VisitConfirmed

  datatype MsgType =
    TServerHello | TPong | TVisitTcpShare | TClientHello | TWorkerHello | TPing | TVisitConfirmed

  function TypeOf(m: Msg): MsgType {
    match m
    case ServerHello(_, _) => TServerHello
    case Pong => TPong
    case VisitTcpShare(_, _) => TVisitTcpShare
    case ClientHello(_, _, _) => TClientHello
    case WorkerHello(_, _) => TWorkerHello
    case Ping => TPing
    case VisitConfirmed => TVisitConfirmed
  }

  function TypeId(t: MsgType): string {
    match t
    case TServerHello => "server_hello"
    case TPong => "pong"
    case TVisitTcpShare => "visit_tcp_share"
    case TClientHello => "client_hello"
    case TWorkerHello => "tcp_share_worker_hello"
    case TPing => "ping"
    case TVisitConfirmed => "visit_confirmed"
  }

  // ---- To JSON ----------------------------------------------------------

  type Fields = seq<Member>

  function ShareValue(s: ShareSpec): Value {
    Obj([Member("id", Str(s.id)), Member("port", Uint(s.port))])
  }

  function ShareValues(ss: seq<ShareSpec>): seq<Value> {
    if ss == [] then [] else [ShareValue(ss[0])] + ShareValues(ss[1..])
  }

  function FieldsOf(m: Msg): Fields {
    match m
    case ServerHello(version, welcome) => [Member("version", Int(version)), Member("welcome", Str(welcome))]
    case VisitTcpShare(epoch, peer) =>
      [Member("epoch", Uint(epoch)),
       Member("peer", Obj([Member("ip", Str(peer.ip)), Member("port", Uint(peer.port))]))]
    case ClientHello(version, uuid, shares) =>
      [Member("version", Int(version)),
       Member("client_uuid", Str(uuid)),
       Member("tcp_shares", Arr(ShareValues(shares)))]
    case WorkerHello(id, worker) => [Member("tcp_share_id", Str(id)), Member("worker_id", Int(worker))]
    case _ => []
  }

  /** Assigns to a key of an object: replaces its value, or appends it. */
  function Assign(o: Fields, key: string, v: Value): Fields {
    if o == [] then [Member(key, v)]
    else if o[0].key == key then [Member(key, v)] + o[1..]
    else [o[0]] + Assign(o[1..], key, v)
  }

  function Marshal(m: Msg): Value {
    Obj(Assign(FieldsOf(m), "msg_type", Str(TypeId(TypeOf(m)))))
  }

  // ---- From JSON --------------------------------------------------------

  datatype Problem = NotAnObject | MissingField(key: string) | BadField(key: string) | UnexpectedType(id: string)

  datatype Result<+T> = Ok(value: T) | Err(problem: Problem) {
    predicate IsFailure() { Err? }
    function PropagateFailure<U>(): Result<U>
      requires Err?
    {
      Err(problem)
    }
    function Extract(): T
      requires Ok?
    {
      value
    }
  }

  function At(o: Fields, key: string): Result<Value> {
    if o == [] then Err(MissingField(key))
    else if o[0].key == key then Ok(o[0].value)
    else At(o[1..], key)
  }

  function AtString(o: Fields, key: string): Result<string> {
    var v :- At(o, key);
    if v.Str? then Ok(v.s) else Err(BadField(key))
  }

  /** An integer of either kind, if it is in range. */
  function AtInteger(o: Fields, key: string, lo: int, hi: int): (r: Result<int>)
    ensures r.Ok? ==> lo <= r.value < hi
  {
    var v :- At(o, key);
    if v.Int? && lo <= v.n < hi then Ok(v.n)
    else if v.Uint? && lo <= v.u < hi then Ok(v.u)
    else Err(BadField(key))
  }

  function AtObject(o: Fields, key: string): Result<Fields> {
    var v :- At(o, key);
    if v.Obj? then Ok(v.members) else Err(BadField(key))
  }

  function AtShares(o: Fields, key: string): Result<seq<ShareSpec>> {
    var v :- At(o, key);
    if v.Arr? then Shares(v.items) else Err(BadField(key))
  }

  function Shares(vs: seq<Value>): Result<seq<ShareSpec>> {
    if vs == [] then Ok([])
    else if !vs[0].Obj? then Err(NotAnObject)
    else
      var id :- AtString(vs[0].members, "id");
      var port :- AtInteger(vs[0].members, "port", 0, 0x1_0000);
      var rest :- Shares(vs[1..]);
      Ok([ShareSpec(id, port)] + rest)
  }

  /** The conversion of an object to a message of type t, field by field. */
  function Convert(t: MsgType, o: Fields): Result<Msg> {
    match t
    case TServerHello =>
      var version :- AtInteger(o, "version", -0x8000_0000, 0x8000_0000);
      var welcome :- AtString(o, "welcome");
      Ok(ServerHello(version, welcome))
    case TVisitTcpShare =>
      var epoch :- AtInteger(o, "epoch", 0, 0x1_0000_0000_0000_0000);
      var peer :- AtObject(o, "peer");
      var ip :- AtString(peer, "ip");
      var port :- AtInteger(peer, "port", 0, 0x1_0000);
      Ok(VisitTcpShare(epoch, Endpoint(ip, port)))
    case TClientHello =>
      var version :- AtInteger(o, "version", -0x8000_0000, 0x8000_0000);
      var uuid :- AtString(o, "client_uuid");
      var shares :- AtShares(o, "tcp_shares");
      Ok(ClientHello(version, uuid, shares))
    case TWorkerHello =>
      var id :- AtString(o, "tcp_share_id");
      var worker :- AtInteger(o, "worker_id", -0x8000_0000, 0x8000_0000);
      Ok(WorkerHello(id, worker))
    case TPong => Ok(Pong)
    case TPing => Ok(Ping)
    case TVisitConfirmed => Ok(VisitConfirmed)
  }

  /** Tries the expected types in order. */
  function UnmarshalAs(id: string, o: Fields, expecting: seq<MsgType>): Result<Msg> {
    if expecting == [] then Err(UnexpectedType(id))
    else if id == TypeId(expecting[0]) then Convert(expecting[0], o)
    else UnmarshalAs(id, o, expecting[1..])
  }

  function Unmarshal(v: Value, expecting: seq<MsgType>): Result<Msg> {
    if !v.Obj? then Err(NotAnObject)
    else
      var id :- AtString(v.members, "msg_type");
      UnmarshalAs(id, v.members, expecting)
  }

  // ---- A number's kind does not matter ----------------------------------

  lemma {:induction false} AtCanonical(o: Fields, key: string)
    ensures At(CanonicalMembers(o), key) == match At(o, key) case Ok(v) => Ok(Canonical(v)) case Err(p) => Err(p)
  {
    if o != [] {
      AtCanonical(o[1..], key);
      assert CanonicalMembers(o)[1..] == CanonicalMembers(o[1..]);
    }
  }

  lemma ScalarsCanonical(o: Fields, key: string, lo: int, hi: int)
    ensures AtString(CanonicalMembers(o), key) == AtString(o, key)
    ensures AtInteger(CanonicalMembers(o), key, lo, hi) == AtInteger(o, key, lo, hi)
  {
    hide At;
    AtCanonical(o, key);
  }

  lemma {:induction false} SharesCanonical(vs: seq<Value>)
    ensures Shares(CanonicalItems(vs)) == Shares(vs)
  {
    hide AtString, AtInteger;
    if vs != [] {
      SharesCanonical(vs[1..]);
      assert CanonicalItems(vs)[1..] == CanonicalItems(vs[1..]);
      if vs[0].Obj? {
        ScalarsCanonical(vs[0].members, "id", 0, 0);
        ScalarsCanonical(vs[0].members, "port", 0, 0x1_0000);
      }
    }
  }

  lemma ConvertCanonical(t: MsgType, o: Fields)
    ensures Convert(t, CanonicalMembers(o)) == Convert(t, o)
  {
    hide At, AtString, AtInteger, Shares;
    ScalarsCanonical(o, "version", -0x8000_0000, 0x8000_0000);
    match t
    case TServerHello => ScalarsCanonical(o, "welcome", 0, 0);
    case TVisitTcpShare =>
      ScalarsCanonical(o, "epoch", 0, 0x1_0000_0000_0000_0000);
      AtCanonical(o, "peer");
      match AtObject(o, "peer") {
        case Ok(peer) =>
          ScalarsCanonical(peer, "ip", 0, 0);
          ScalarsCanonical(peer, "port", 0, 0x1_0000);
        case Err(_) =>
      }
    case TClientHello =>
      ScalarsCanonical(o, "client_uuid", 0, 0);
      AtCanonical(o, "tcp_shares");
      match At(o, "tcp_shares") {
        case Ok(v) => if v.Arr? { SharesCanonical(v.items); }
        case Err(_) =>
      }
    case TWorkerHello =>
      ScalarsCanonical(o, "tcp_share_id", 0, 0);
      ScalarsCanonical(o, "worker_id", -0x8000_0000, 0x8000_0000);
    case _ =>
  }

  lemma {:induction false} UnmarshalAsCanonical(id: string, o: Fields, ts: seq<MsgType>)
    ensures UnmarshalAs(id, CanonicalMembers(o), ts) == UnmarshalAs(id, o, ts)
  {
    hide Convert, TypeId;
    if ts != [] {
      ConvertCanonical(ts[0], o);
      UnmarshalAsCanonical(id, o, ts[1..]);
    }
  }

  /** Reading a value back may change the kind of its numbers; unmarshalling does not notice. */
  lemma UnmarshalCanonical(v: Value, ts: seq<MsgType>)
    ensures Unmarshal(Canonical(v), ts) == Unmarshal(v, ts)
  {
    hide UnmarshalAs, AtString, AtInteger;
    if v.Obj? {
      ScalarsCanonical(v.members, "msg_type", 0, 0);
      match AtString(v.members, "msg_type")
      case Ok(id) => UnmarshalAsCanonical(id, v.members, ts);
      case Err(_) =>
    }
  }

  // ---- The typed round trip ---------------------------------------------

  lemma TypeIdsDistinct(t: MsgType, u: MsgType)
    ensures TypeId(t) == TypeId(u) <==> t == u
  {
    var a, b := TypeId(t), TypeId(u);
    if a == b {
      assert |a| == |b| && a[1] == b[1] && a[|a| - 1] == b[|b| - 1];
    }
  }

  lemma {:induction false} AtAssign(o: Fields, key: string, v: Value, k: string)
    ensures At(Assign(o, key, v), k) == if k == key then Ok(v) else At(o, k)
  {
    if o != [] && o[0].key != key {
      AtAssign(o[1..], key, v, k);
      assert Assign(o, key, v)[1..] == Assign(o[1..], key, v);
    }
  }

  lemma FirstAndSecond(a: Member, b: Member, more: Fields)
    requires a.key != b.key
    ensures At([a, b] + more, a.key) == Ok(a.value) && At([a, b] + more, b.key) == Ok(b.value)
  {
    assert ([a, b] + more)[1..] == [b] + more;
  }

  lemma {:induction false} SharesRoundTrip(ss: seq<ShareSpec>)
    ensures Shares(ShareValues(ss)) == Ok(ss)
  {
    hide At;
    if ss != [] {
      SharesRoundTrip(ss[1..]);
      var id, port := Member("id", Str(ss[0].id)), Member("port", Uint(ss[0].port));
      FirstAndSecond(id, port, []);
      assert [id, port] + [] == [id, port];
      assert ShareValues(ss)[1..] == ShareValues(ss[1..]);
      assert [ShareSpec(ss[0].id, ss[0].port)] + ss[1..] == ss;
    }
  }

  /** Converting the tagged fields of a message to its own type gives the message back. */
  lemma ConvertFields(m: Msg)
    ensures Convert(TypeOf(m), Assign(FieldsOf(m), "msg_type", Str(TypeId(TypeOf(m))))) == Ok(m)
  {
    hide At, Assign, Shares, ShareValues, TypeId;
    var f := FieldsOf(m);
    var tag := Str(TypeId(TypeOf(m)));
    match m
    case ServerHello(_, _) =>
      AtAssign(f, "msg_type", tag, "version");
      AtAssign(f, "msg_type", tag, "welcome");
      FirstAndSecond(f[0], f[1], []);
      assert f == [f[0], f[1]] + [];
    case VisitTcpShare(_, peer) =>
      AtAssign(f, "msg_type", tag, "epoch");
      AtAssign(f, "msg_type", tag, "peer");
      FirstAndSecond(f[0], f[1], []);
      assert f == [f[0], f[1]] + [];
      var ip, port := Member("ip", Str(peer.ip)), Member("port", Uint(peer.port));
      FirstAndSecond(ip, port, []);
      assert [ip, port] + [] == [ip, port];
    case ClientHello(_, _, shares) =>
      AtAssign(f, "msg_type", tag, "version");
      AtAssign(f, "msg_type", tag, "client_uuid");
      AtAssign(f, "msg_type", tag, "tcp_shares");
      FirstAndSecond(f[0], f[1], [f[2]]);
      assert f == [f[0], f[1]] + [f[2]];
      assert At(f, "tcp_shares") == Ok(f[2].value) by { Third(f); }
      SharesRoundTrip(shares);
    case WorkerHello(_, _) =>
      AtAssign(f, "msg_type", tag, "tcp_share_id");
      AtAssign(f, "msg_type", tag, "worker_id");
      FirstAndSecond(f[0], f[1], []);
      assert f == [f[0], f[1]] + [];
    case _ =>
  }

  lemma Third(o: Fields)
    requires |o| == 3 && o[0].key != o[2].key && o[1].key != o[2].key
    ensures At(o, o[2].key) == Ok(o[2].value)
  {
    var rest := o[1..][1..];
    assert rest == [o[2]] && At(rest, o[2].key) == Ok(o[2].value);
    assert At(o[1..], o[2].key) == At(rest, o[2].key);
  }

  lemma {:induction false} UnmarshalAsFinds(t: MsgType, o: Fields, ts: seq<MsgType>)
    ensures UnmarshalAs(TypeId(t), o, ts) == if t in ts then Convert(t, o) else Err(UnexpectedType(TypeId(t)))
  {
    hide TypeId, Convert;
    if ts != [] {
      TypeIdsDistinct(t, ts[0]);
      UnmarshalAsFinds(t, o, ts[1..]);
    }
  }

  /**
   Whatever types are expected, unmarshalling a marshalled message gives the same
   message when its own type is among them, and reports its type otherwise.
   */
  lemma TypedRoundTrip(m: Msg, ts: seq<MsgType>)
    ensures Unmarshal(Marshal(m), ts) ==
            if TypeOf(m) in ts then Ok(m) else Err(UnexpectedType(TypeId(TypeOf(m))))
  {
    hide TypeId, Convert, Assign, FieldsOf, At, UnmarshalAs;
    var tag := Str(TypeId(TypeOf(m)));
    var o := Assign(FieldsOf(m), "msg_type", tag);
    AtAssign(FieldsOf(m), "msg_type", tag, "msg_type");
    UnmarshalAsFinds(TypeOf(m), o, ts);
    ConvertFields(m);
  }

  // ---- What is accepted ----------------------------------------------------

  ghost predicate HasString(o: Fields, key: string, s: string) { At(o, key) == Ok(Str(s)) }

  /** An integer of either kind. */
  ghost predicate HasInteger(o: Fields, key: string, x: int) {
    match At(o, key)
    case Ok(Int(n)) => n == x
    case Ok(Uint(u)) => u == x
    case _ => false
  }

  ghost predicate IsShare(v: Value, s: ShareSpec) {
    v.Obj? && HasString(v.members, "id", s.id) && HasInteger(v.members, "port", s.port)
  }

  ghost predicate AreShares(vs: seq<Value>, ss: seq<ShareSpec>) {
    |vs| == |ss| && forall i :: 0 <= i < |vs| ==> IsShare(vs[i], ss[i])
  }

  /** Every field of the message is there, of the right kind and with its value; there may be others. */
  ghost predicate Holds(o: Fields, m: Msg) {
    match m
    case ServerHello(version, welcome) => HasInteger(o, "version", version) && HasString(o, "welcome", welcome)
    case VisitTcpShare(epoch, peer) =>
      && HasInteger(o, "epoch", epoch)
      && (match At(o, "peer")
          case Ok(Obj(p)) => HasString(p, "ip", peer.ip) && HasInteger(p, "port", peer.port)
          case _ => false)
    case ClientHello(version, uuid, shares) =>
      && HasInteger(o, "version", version) && HasString(o, "client_uuid", uuid)
      && (match At(o, "tcp_shares") case Ok(Arr(vs)) => AreShares(vs, shares) case _ => false)
    case WorkerHello(id, worker) => HasString(o, "tcp_share_id", id) && HasInteger(o, "worker_id", worker)
    case _ => true
  }

  lemma {:induction false} SharesExactly(vs: seq<Value>, ss: seq<ShareSpec>)
    ensures Shares(vs) == Ok(ss) <==> AreShares(vs, ss)
  {
    hide At;
    if vs != [] && ss != [] {
      SharesExactly(vs[1..], ss[1..]);
      assert [ss[0]] + ss[1..] == ss;
      if AreShares(vs, ss) {
        assert IsShare(vs[0], ss[0]);
      }
      if IsShare(vs[0], ss[0]) && AreShares(vs[1..], ss[1..]) {
        forall i | 0 <= i < |vs| ensures IsShare(vs[i], ss[i]) {
          if i > 0 {
            assert vs[i] == vs[1..][i - 1] && ss[i] == ss[1..][i - 1];
          }
        }
      }
    }
  }

  lemma ConvertExactly(t: MsgType, o: Fields, m: Msg)
    ensures Convert(t, o) == Ok(m) <==> TypeOf(m) == t && Holds(o, m)
  {
    hide At, Shares, AreShares;
    if m.ClientHello? && t.TClientHello? {
      match At(o, "tcp_shares")
      case Ok(Arr(vs)) => SharesExactly(vs, m.tcpShares);
      case _ =>
    }
  }

  lemma {:induction false} UnmarshalAsExactly(id: string, o: Fields, ts: seq<MsgType>, m: Msg)
    ensures UnmarshalAs(id, o, ts) == Ok(m) <==> TypeOf(m) in ts && id == TypeId(TypeOf(m)) && Holds(o, m)
    ensures (forall t <- ts :: id != TypeId(t)) ==> UnmarshalAs(id, o, ts) == Err(UnexpectedType(id))
  {
    hide TypeId, Convert, Holds;
    if ts != [] {
      TypeIdsDistinct(TypeOf(m), ts[0]);
      ConvertExactly(ts[0], o, m);
      UnmarshalAsExactly(id, o, ts[1..], m);
    }
  }

  /**
   A value is accepted as a message exactly when it is an object whose msg_type is the
   string of the message's type, that type is expected, and all fields of the message are
   there with the right kinds and values; with an unexpected msg_type it is refused for that.
   */
  lemma UnmarshalExactly(v: Value, ts: seq<MsgType>, m: Msg)
    ensures Unmarshal(v, ts) == Ok(m) <==>
            && v.Obj? && TypeOf(m) in ts
            && HasString(v.members, "msg_type", TypeId(TypeOf(m))) && Holds(v.members, m)
    ensures forall id: string ::
              v.Obj? && HasString(v.members, "msg_type", id) && (forall t <- ts :: id != TypeId(t)) ==>
                Unmarshal(v, ts) == Err(UnexpectedType(id))
  {
    hide TypeId, Holds, At, UnmarshalAs;
    if v.Obj? && AtString(v.members, "msg_type").Ok? {
      UnmarshalAsExactly(AtString(v.members, "msg_type").value, v.members, ts, m);
    }
  }

  // ---- On the wire ------------------------------------------------------

  /** The JSON text of a message; a character of it is one byte. */
  function WireText(m: Msg): string { Text(Compact, Marshal(m), 0) }

  function ToBytes(s: string): (b: Bytes)
    ensures |b| == |s|
  {
    seq(|s|, i requires 0 <= i < |s| => Trunc(s[i] as int))
  }

  function FromBytes(b: Bytes): (s: string)
    ensures |s| == |b|
  {
    seq(|b|, i requires 0 <= i < |b| => Align(b[i]) as char)
  }

  ghost predicate OneByteUnits(s: string) { forall c <- s :: c as int < 256 }

  lemma BytesRoundTrip(s: string)
    requires OneByteUnits(s)
    ensures FromBytes(ToBytes(s)) == s
  {
    forall i | 0 <= i < |s| ensures Align(ToBytes(s)[i]) as char == s[i] {
      assert s[i] in s;
      AlignTrunc(s[i] as int, 0);
    }
  }

  function Encode(m: Msg): Bytes { ToBytes(WireText(m)) }

  function Decode(b: Bytes, expecting: seq<MsgType>): Option<Msg> {
    match Read(FromBytes(b))
    case Bad => None
    case Parsed(v, _) => (match Unmarshal(v, expecting) case Ok(m) => Some(m) case Err(_) => None)
  }

  /** The receiver takes payloads up to the limit, and the sender does not check it. */
  ghost predicate Sendable(m: Msg) {
    OneByteUnits(WireText(m)) && |WireText(m)| <= MAX_PAYLOAD
  }

  /** Only expected messages are decoded. */
  lemma DecodesExpected(b: Bytes, ts: seq<MsgType>)
    ensures Decode(b, ts).Some? ==> TypeOf(Decode(b, ts).value) in ts
  {
    hide Read, Unmarshal, TypeId;
    if Decode(b, ts).Some? {
      UnmarshalExactly(Read(FromBytes(b)).value, ts, Decode(b, ts).value);
    }
  }

  lemma DecodeEncode(m: Msg, ts: seq<MsgType>)
    requires OneByteUnits(WireText(m))
    ensures Decode(Encode(m), ts) == if TypeOf(m) in ts then Some(m) else None
  {
    hide Read, Text, Marshal, Unmarshal, Canonical, TypeId;
    BytesRoundTrip(WireText(m));
    ReadsBack(Compact, Marshal(m), "");
    assert WireText(m) + "" == WireText(m);
    UnmarshalCanonical(Marshal(m), ts);
    TypedRoundTrip(m, ts);
  }

  lemma {:induction false} PlainUnescaped(s: string)
    requires forall c <- s :: ' ' <= c && c != '\"' && c != '\\'
    ensures EscapeAll(s) == s
  {
    if s != "" {
      assert s[0] in s;
      assert forall c <- s[1..] :: c in s;
      assert Escape(s[0]) == [s[0]];
      hide Escape;
      PlainUnescaped(s[1..]);
      assert [s[0]] + s[1..] == s;
    }
  }

  lemma BareText(id: string)
    requires forall c <- id :: ' ' <= c && c != '\"' && c != '\\'
    ensures Text(Compact, Obj([Member("msg_type", Str(id))]), 0) == "{\"msg_type\":\"" + id + "\"}"
  {
    hide EscapeAll;
    PlainUnescaped(id);
    PlainUnescaped("msg_type");
    var m := Member("msg_type", Str(id));
    var k := Quote("msg_type");
    assert k == "\"msg_type\"";
    assert MemberText(Compact, m, 1) == k + ":" + Quote(id);
    assert MembersText(Compact, [m], 1) == MemberText(Compact, m, 1);
    assert Text(Compact, Obj([m]), 0) == "{" + MemberText(Compact, m, 1) + "}";
  }

  lemma TypeIdPlain(t: MsgType)
    ensures forall c <- TypeId(t) :: ' ' <= c < 128 as char && c != '\"' && c != '\\'
    ensures |TypeId(t)| <= 22
  {
  }

  /** The messages without fields always fit. */
  lemma BareSendable(m: Msg)
    requires m.Ping? || m.Pong? || m.VisitConfirmed?
    ensures Sendable(m) && |Encode(m)| < 40
  {
    hide Text, TypeId;
    var id := TypeId(TypeOf(m));
    TypeIdPlain(TypeOf(m));
    BareText(id);
    assert Marshal(m) == Obj([Member("msg_type", Str(id))]);
    var before, after := "{\"msg_type\":\"", "\"}";
    assert OneByteUnits(before) && OneByteUnits(after);
  }
}

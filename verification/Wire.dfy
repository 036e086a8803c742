/** Wire v2 framing and messages (pkg/proto/wire/wire.go, pkg/msg/wire_v2.go and the
    read-writer of pkg/msg/udp_binary.go), and the byte streams they make. */
module Wire {
  import opened Options
  import opened Bytes
  import UdpPacket

  const FRAME_TYPE_MESSAGE := 16
  const MAX_FRAME_PAYLOAD_SIZE := UdpPacket.MAX_FRAME_PAYLOAD_SIZE
  const TYPE_UDP_PACKET := 13
  const TYPE_UDP_PACKET_BINARY := 19

  datatype Error =
    | EOF | UnexpectedEOF | UnsupportedFlags | PayloadTooLong | UnexpectedFrameType | PayloadTooShort | UnknownType
    | UnexpectedType | NotJson | JsonUdpPacket | BadUdpPacket(cause: UdpPacket.Error) | NilMessage | UnknownGoType
    | Unmarshalable

  datatype Result<+T> = Ok(value: T) | Err(error: Error)

  datatype Frame = Frame(typ: nat, flags: nat, payload: seq<Byte>)

  // ----- Frames -----

  /** io.ReadFull: the bytes or the error, and what is left to read. */
  function ReadFull(s: seq<Byte>, n: nat): (Result<seq<Byte>>, seq<Byte>) {
    if |s| >= n then (Ok(s[..n]), s[n..])
    else if |s| == 0 then (Err(EOF), [])
    else (Err(UnexpectedEOF), [])
  }

  function ReadFrame(s: seq<Byte>): (r: (Result<Frame>, seq<Byte>))
    ensures r.0.Ok? ==> |r.1| + 8 + |r.0.value.payload| == |s|
  {
    match ReadFull(s, 8)
    case (Err(e), rest) => (Err(e), rest)
    case (Ok(header), rest) =>
      var flags, length := Uint16(header[2..4]), Uint32(header[4..8]);
      if flags != 0 then (Err(UnsupportedFlags), rest)
      else if length > MAX_FRAME_PAYLOAD_SIZE then (Err(PayloadTooLong), rest)
      else
        match ReadFull(rest, length)
        case (Err(e), rest') => (Err(e), rest')
        case (Ok(payload), rest') => (Ok(Frame(Uint16(header[..2]), flags, payload)), rest')
  }

  /** What WriteFrame adds to the stream. */
  function FrameBytes(f: Frame): Result<seq<Byte>>
    requires f.typ < 65536 && f.flags < 65536
  {
    if f.flags != 0 then Err(UnsupportedFlags)
    else if |f.payload| > MAX_FRAME_PAYLOAD_SIZE then Err(PayloadTooLong)
    else Ok(PutUint16(f.typ) + PutUint16(f.flags) + PutUint32(|f.payload|) + f.payload)
  }

  lemma HeaderParts(a: seq<Byte>, b: seq<Byte>, c: seq<Byte>)
    requires |a| == 2 && |b| == 2 && |c| == 4
    ensures (a + b + c)[..2] == a && (a + b + c)[2..4] == b && (a + b + c)[4..8] == c
  {
  }

  /** A written frame is read back from the head of any stream. */
  lemma ReadWrittenFrame(f: Frame, rest: seq<Byte>)
    requires f.typ < 65536 && f.flags < 65536 && FrameBytes(f).Ok?
    ensures ReadFrame(FrameBytes(f).value + rest) == (Ok(f), rest)
    ensures |FrameBytes(f).value| == 8 + |f.payload|
  {
    var s := FrameBytes(f).value + rest;
    var a, b, c := PutUint16(f.typ), PutUint16(f.flags), PutUint32(|f.payload|);
    hide PutUint16, PutUint32, Uint16, Uint32;
    HeaderParts(a, b, c);
    assert s[..8] == a + b + c;
    assert s[8..] == f.payload + rest;
    assert s[8..][..|f.payload|] == f.payload && s[8..][|f.payload|..] == rest;
  }

  /** The reader accepts exactly what the writer writes: a frame comes off the stream if and
      only if the stream begins with the bytes of that frame. */
  lemma ReadFrameIff(s: seq<Byte>, f: Frame, rest: seq<Byte>)
    requires f.typ < 65536 && f.flags < 65536
    ensures ReadFrame(s) == (Ok(f), rest) <==> FrameBytes(f).Ok? && s == FrameBytes(f).value + rest
  {
    if FrameBytes(f).Ok? && s == FrameBytes(f).value + rest { ReadWrittenFrame(f, rest); }
    if ReadFrame(s) == (Ok(f), rest) { ReadIsWritten(s, f, rest); }
  }

  lemma ReadIsWritten(s: seq<Byte>, f: Frame, rest: seq<Byte>)
    requires ReadFrame(s) == (Ok(f), rest)
    ensures f.typ < 65536 && f.flags == 0 && FrameBytes(f).Ok? && s == FrameBytes(f).value + rest
  {
    var header := s[..8];
    PutOfUint16(header[..2]);
    PutOfUint16(header[2..4]);
    PutOfUint32(header[4..8]);
    hide PutUint16, PutUint32, Uint16, Uint32;
    assert header == header[..2] + header[2..4] + header[4..8];
    assert s == header + f.payload + rest;
  }

  /** A header with flags, or with a length above the limit, is refused before its payload is read. */
  lemma BadHeaderIsRefused(typ: nat, flags: nat, length: nat, rest: seq<Byte>)
    requires typ < 65536 && flags < 65536 && length < 0x1_0000_0000 && (flags != 0 || length > MAX_FRAME_PAYLOAD_SIZE)
    ensures ReadFrame(PutUint16(typ) + PutUint16(flags) + PutUint32(length) + rest)
            == (Err(if flags != 0 then UnsupportedFlags else PayloadTooLong), rest)
  {
    var a, b, c := PutUint16(typ), PutUint16(flags), PutUint32(length);
    hide PutUint16, PutUint32, Uint16, Uint32;
    HeaderParts(a, b, c);
    var s := a + b + c + rest;
    assert s[..8] == a + b + c && s[8..] == rest;
  }

  /** A stream cut inside a frame gives an error and nothing else: a plain EOF if the cut is
      before the frame or right behind its header, an unexpected EOF anywhere else. */
  lemma ReadCutFrame(f: Frame, n: nat)
    requires f.typ < 65536 && f.flags < 65536 && FrameBytes(f).Ok? && n < |FrameBytes(f).value|
    ensures ReadFrame(FrameBytes(f).value[..n]) == (Err(if n == 0 || n == 8 then EOF else UnexpectedEOF), [])
  {
    var b := FrameBytes(f).value;
    var s := b[..n];
    if n >= 8 {
      assert s[..8] == PutUint16(f.typ) + PutUint16(f.flags) + PutUint32(|f.payload|);
      assert s[..8][2..4] == PutUint16(f.flags);
      assert s[..8][4..8] == PutUint32(|f.payload|);
      assert |s[8..]| == n - 8;
    }
  }

  // ----- Message types -----

  datatype MsgType =
    | LoginT | LoginRespT | NewProxyT | NewProxyRespT | CloseProxyT | NewWorkConnT | ReqWorkConnT | StartWorkConnT
    | NewVisitorConnT | NewVisitorConnRespT | PingT | PongT | UdpPacketT | NatHoleVisitorT | NatHoleClientT
    | NatHoleRespT | NatHoleSidT | NatHoleReportT

  /** v2MsgTypeMap */
  const V2_MSG_TYPE_MAP: map<nat, MsgType> := map[
    1 := LoginT, 2 := LoginRespT, 3 := NewProxyT, 4 := NewProxyRespT, 5 := CloseProxyT, 6 := NewWorkConnT,
    7 := ReqWorkConnT, 8 := StartWorkConnT, 9 := NewVisitorConnT, 10 := NewVisitorConnRespT, 11 := PingT, 12 := PongT,
    13 := UdpPacketT, 14 := NatHoleVisitorT, 15 := NatHoleClientT, 16 := NatHoleRespT, 17 := NatHoleSidT,
    18 := NatHoleReportT]

  /** v2MsgTypeIDMap */
  function TypeID(t: MsgType): (id: nat)
    ensures 1 <= id <= 18 && id in V2_MSG_TYPE_MAP && V2_MSG_TYPE_MAP[id] == t
  {
    match t
    case LoginT => 1 case LoginRespT => 2 case NewProxyT => 3 case NewProxyRespT => 4 case CloseProxyT => 5
    case NewWorkConnT => 6 case ReqWorkConnT => 7 case StartWorkConnT => 8 case NewVisitorConnT => 9
    case NewVisitorConnRespT => 10 case PingT => 11 case PongT => 12 case UdpPacketT => 13 case NatHoleVisitorT => 14
    case NatHoleClientT => 15 case NatHoleRespT => 16 case NatHoleSidT => 17 case NatHoleReportT => 18
  }

  /** Type IDs and types determine each other, in both directions, and the binary
      UDP packet has no Go type of its own in the map. */
  lemma TypeMapIsBijective(id: nat, t: MsgType)
    ensures id in V2_MSG_TYPE_MAP && V2_MSG_TYPE_MAP[id] == t <==> id == TypeID(t)
    ensures TYPE_UDP_PACKET_BINARY !in V2_MSG_TYPE_MAP
  {
    if id in V2_MSG_TYPE_MAP { assert id == TypeID(V2_MSG_TYPE_MAP[id]); }
  }

  /** buildV2MsgTypeMaps: one pass over the table, in whatever order the map is iterated. */
  method BuildV2MsgTypeMaps() returns (types: map<nat, MsgType>, ids: map<MsgType, nat>)
    ensures types == V2_MSG_TYPE_MAP
    ensures forall t :: t in ids && ids[t] == TypeID(t)
  {
    types, ids := map[], map[];
    var table := V2_MSG_TYPE_MAP;
    var todo := table.Keys;
    forall i, t { TypeMapIsBijective(i, t); }
    hide TypeID;
    while todo != {}
      invariant todo <= table.Keys
      invariant types.Keys == table.Keys - todo && forall i :: i in types ==> types[i] == table[i]
      invariant forall t :: t in ids <==> TypeID(t) in types
      invariant forall t :: t in ids ==> ids[t] == TypeID(t)
    {
      var typeID :| typeID in todo;
      var t := table[typeID];
      types := types[typeID := t];
      ids := ids[t := typeID];
      todo := todo - {typeID};
    }
  }

  // ----- Messages -----

  /** JSON: a value of a message type to bytes, and bytes into a value that is already there,
      which keeps the fields the bytes do not name. */
  datatype Json<!V> = Json(marshal: (MsgType, V) -> Option<seq<Byte>>,
                           merge: (MsgType, V, seq<Byte>) -> Option<V>,
                           zero: MsgType -> V)

  /** Decoding into a new value. */
  function Unmarshal<V>(json: Json<V>, t: MsgType, b: seq<Byte>): Option<V> {
    json.merge(t, json.zero(t), b)
  }

  ghost predicate Faithful<V(!new)>(json: Json<V>) {
    forall t, v :: json.marshal(t, v).Some? ==> Unmarshal(json, t, json.marshal(t, v).value) == Some(v)
  }

  type JsonType = t: MsgType | !t.UdpPacketT? witness PingT

  /** A message handed to the read-writer: a UDP packet (nil or not), a registered
      message of another type, a value of an unregistered type, or nothing. */
  datatype Message<V> =
    | Udp(packet: Option<UdpPacket.Packet>)
    | Other(typ: JsonType, value: V)
    | Unregistered
    | Nothing

  /** EncodeV2MessageFrame for a registered type */
  function EncodeV2<V>(json: Json<V>, t: MsgType, v: V): Result<Frame> {
    match json.marshal(t, v)
    case None => Err(Unmarshalable)
    case Some(content) => Ok(Frame(FRAME_TYPE_MESSAGE, 0, PutUint16(TypeID(t)) + content))
  }

  function MessageFrame<V>(json: Json<V>, m: Message<V>): (r: Result<Frame>)
    ensures r.Ok? ==> r.value.typ == FRAME_TYPE_MESSAGE && r.value.flags == 0 && |r.value.payload| >= 2
  {
    match m
    case Nothing => Err(NilMessage)
    case Unregistered => Err(UnknownGoType)
    case Other(t, v) => EncodeV2(json, t, v)
    case Udp(packet) =>
      match UdpPacket.Encode(packet)
      case Err(e) => Err(BadUdpPacket(e))
      case Ok(body) => Ok(Frame(FRAME_TYPE_MESSAGE, 0, PutUint16(TYPE_UDP_PACKET_BINARY) + body))
  }

  /** What V2BinaryUDPPacketReadWriter.WriteMsg adds to the stream. */
  function WriteBytes<V>(json: Json<V>, m: Message<V>): Result<seq<Byte>> {
    match MessageFrame(json, m)
    case Err(e) => Err(e)
    case Ok(f) => FrameBytes(f)
  }

  predicate IsType(f: Frame, id: nat) {
    f.typ == FRAME_TYPE_MESSAGE && |f.payload| >= 2 && Uint16(f.payload[..2]) == id
  }

  /** DecodeV2MessageFrame; a JSON UDP packet cannot get here. */
  function DecodeV2<V>(json: Json<V>, f: Frame): Result<Message<V>>
    requires !IsType(f, TYPE_UDP_PACKET)
  {
    if f.typ != FRAME_TYPE_MESSAGE then Err(UnexpectedFrameType)
    else if |f.payload| < 2 then Err(PayloadTooShort)
    else
      var id := Uint16(f.payload[..2]);
      if id !in V2_MSG_TYPE_MAP then Err(UnknownType)
      else
        assert V2_MSG_TYPE_MAP[id].UdpPacketT? ==> id == 13;
        match Unmarshal(json, V2_MSG_TYPE_MAP[id], f.payload[2..])
        case None => Err(NotJson)
        case Some(v) => Ok(Other(V2_MSG_TYPE_MAP[id], v))
  }

  function DecodeMessage<V>(json: Json<V>, f: Frame): Result<Message<V>> {
    if IsType(f, TYPE_UDP_PACKET_BINARY) then
      match UdpPacket.Decode(f.payload[2..])
      case Err(e) => Err(BadUdpPacket(e))
      case Ok(p) => Ok(Udp(Some(p)))
    else if IsType(f, TYPE_UDP_PACKET) then Err(JsonUdpPacket)
    else DecodeV2(json, f)
  }

  /** A message is read exactly from the frames that carry it: a UDP packet from a frame with the
      binary type and an acceptable body, any other message from a frame with its own type and
      JSON that decodes to it; a UDP packet in JSON is refused. */
  lemma DecodeAcceptsIff<V(!new)>(json: Json<V>, f: Frame, m: Message<V>)
    ensures DecodeMessage(json, f) == Ok(m) <==>
              && f.typ == FRAME_TYPE_MESSAGE
              && match m
                 case Udp(Some(p)) =>
                   (exists b ::
                      f.payload == PutUint16(TYPE_UDP_PACKET_BINARY) + b && UdpPacket.Decode(b) == UdpPacket.Ok(p))
                 case Other(t, v) =>
                   (exists b :: f.payload == PutUint16(TypeID(t)) + b && Unmarshal(json, t, b) == Some(v))
                 case _ => false
  {
    hide UdpPacket.Decode, TypeID;
    if |f.payload| >= 2 {
      var head, tail := f.payload[..2], f.payload[2..];
      PutOfUint16(head);
      assert f.payload == head + tail;
      TypeMapIsBijective(Uint16(head), UdpPacketT);
      if m.Other? { TypeMapIsBijective(Uint16(head), m.typ); }
      TypeMapIsBijective(TYPE_UDP_PACKET, UdpPacketT);
      hide Uint16, PutUint16;
    }
    forall b, id: nat | id < 65536 && f.payload == PutUint16(id) + b
      ensures |f.payload| >= 2 && f.payload[..2] == PutUint16(id) && f.payload[2..] == b && Uint16(f.payload[..2]) == id
    {
    }
  }

  /** What ReadMsgInto makes of a frame for a target of type `target` that holds `held`;
      UdpPacketT stands for *UDPPacket. */
  function DecodeInto<V>(json: Json<V>, f: Frame, target: MsgType, held: V): Result<Message<V>> {
    if target.UdpPacketT? && !IsType(f, TYPE_UDP_PACKET_BINARY) then
      if f.typ != FRAME_TYPE_MESSAGE then Err(UnexpectedFrameType)
      else if |f.payload| < 2 then Err(PayloadTooShort)
      else if Uint16(f.payload[..2]) == TYPE_UDP_PACKET then Err(JsonUdpPacket)
      else Err(UnexpectedType)
    else if target.UdpPacketT? then
      match UdpPacket.Decode(f.payload[2..])
      case Err(e) => Err(BadUdpPacket(e))
      case Ok(p) => Ok(Udp(Some(p)))
    else if f.typ != FRAME_TYPE_MESSAGE then Err(UnexpectedFrameType)
    else if |f.payload| < 2 then Err(PayloadTooShort)
    else if Uint16(f.payload[..2]) != TypeID(target) then
      if Uint16(f.payload[..2]) !in V2_MSG_TYPE_MAP then Err(UnknownType) else Err(UnexpectedType)
    else
      match json.merge(target, held, f.payload[2..])
      case None => Err(NotJson)
      case Some(v) => Ok(Other(target, v))
  }

  function TypeOf<V>(m: Message<V>): Option<MsgType> {
    match m
    case Udp(_) => Some(UdpPacketT)
    case Other(t, _) => Some(t)
    case _ => None
  }

  lemma MergesItsType<V(!new)>(json: Json<V>, f: Frame, target: JsonType, held: V, m: Message<V>)
    ensures DecodeInto(json, f, target, held) == Ok(m) <==>
              IsType(f, TypeID(target)) && m.Other? && m.typ == target
              && json.merge(target, held, f.payload[2..]) == Some(m.value)
  {
    hide UdpPacket.Decode, TypeID, Uint16;
  }

  /** Reading into a new value, or into any UDP packet, succeeds exactly if reading freely
      gives a message of the target's type, and then both give the same message. Into a value
      that already holds something, only frames of the target's type are merged. */
  lemma ReadIntoAgrees<V(!new)>(json: Json<V>, f: Frame, target: MsgType, held: V, m: Message<V>)
    ensures target.UdpPacketT? || held == json.zero(target) ==>
              (DecodeInto(json, f, target, held) == Ok(m) <==>
                 DecodeMessage(json, f) == Ok(m) && TypeOf(m) == Some(target))
    ensures !target.UdpPacketT? ==>
              (DecodeInto(json, f, target, held) == Ok(m) <==>
                 IsType(f, TypeID(target)) && m.Other? && m.typ == target
                 && json.merge(target, held, f.payload[2..]) == Some(m.value))
  {
    if !target.UdpPacketT? { MergesItsType(json, f, target, held, m); }
    hide UdpPacket.Decode, TypeID;
    if |f.payload| >= 2 { TypeMapIsBijective(Uint16(f.payload[..2]), target); }
    TypeMapIsBijective(TYPE_UDP_PACKET, target);
    TypeMapIsBijective(TYPE_UDP_PACKET_BINARY, target);
    hide Uint16;
  }

  /** V2BinaryUDPPacketReadWriter.ReadMsg: the message or the error, and what is left to read. */
  function ReadMsg<V>(json: Json<V>, s: seq<Byte>): (r: (Result<Message<V>>, seq<Byte>))
    ensures r.0.Ok? ==> |r.1| < |s|
  {
    match ReadFrame(s)
    case (Err(e), rest) => (Err(e), rest)
    case (Ok(f), rest) => (DecodeMessage(json, f), rest)
  }

  /** The message a reader gets for a written one. */
  function Received<V>(m: Message<V>): Message<V> {
    match m
    case Udp(Some(p)) => Udp(Some(UdpPacket.NormalPacket(p)))
    case _ => m
  }

  lemma DecodeEncoded<V(!new)>(json: Json<V>, m: Message<V>)
    requires Faithful(json) && MessageFrame(json, m).Ok?
    ensures DecodeMessage(json, MessageFrame(json, m).value) == Ok(Received(m))
    ensures m.Udp? ==> |MessageFrame(json, m).value.payload| <= MAX_FRAME_PAYLOAD_SIZE
  {
    hide UdpPacket.Encode, UdpPacket.Decode, UdpPacket.NormalPacket;
    var f := MessageFrame(json, m).value;
    match m {
      case Other(t, v) =>
        assert f.payload[..2] == PutUint16(TypeID(t)) && f.payload[2..] == json.marshal(t, v).value;
        TypeMapIsBijective(TypeID(t), t);
      case Udp(packet) =>
        NilIsRefused();
        assert f.payload[..2] == PutUint16(TYPE_UDP_PACKET_BINARY);
        assert f.payload[2..] == UdpPacket.Encode(packet).value;
        UdpPacket.RoundTrip(packet.value);
    }
  }

  lemma NilIsRefused()
    ensures UdpPacket.Encode(None).Err?
  {
  }

  /** A UDP packet the encoder accepts is always written: its frame never exceeds the limit. */
  lemma UdpFrameAlwaysFits<V(!new)>(json: Json<V>, packet: Option<UdpPacket.Packet>)
    ensures WriteBytes(json, Message<V>.Udp(packet)).Ok? <==> UdpPacket.Encode(packet).Ok?
  {
    hide UdpPacket.Encode, UdpPacket.Decode, UdpPacket.NormalPacket;
    if UdpPacket.Encode(packet).Ok? {
      NilIsRefused();
      UdpPacket.RoundTrip(packet.value);
    }
  }

  /** A message is written exactly if it is a UDP packet the encoder accepts, or a registered
      message whose JSON fits a frame behind the two bytes of its type. */
  lemma WrittenIff<V(!new)>(json: Json<V>, m: Message<V>)
    ensures WriteBytes(json, m).Ok? <==>
              match m
              case Udp(packet) => UdpPacket.Encode(packet).Ok?
              case Other(t, v) => json.marshal(t, v).Some? && |json.marshal(t, v).value| <= MAX_FRAME_PAYLOAD_SIZE - 2
              case _ => false
  {
    hide UdpPacket.Encode;
    if m.Udp? { UdpFrameAlwaysFits(json, m.packet); }
  }

  // ----- Streams -----

  /** The stream after writing `ms`, where a refused write adds nothing. */
  function WriteAll<V>(json: Json<V>, ms: seq<Message<V>>): seq<Byte> {
    if ms == [] then []
    else (match WriteBytes(json, ms[0]) case Ok(b) => b case Err(_) => []) + WriteAll(json, ms[1..])
  }

  /** The messages a reader wholly finds among the first `n` bytes of that stream. */
  function Contained<V>(json: Json<V>, ms: seq<Message<V>>, n: nat): seq<Message<V>> {
    if ms == [] then []
    else
      match WriteBytes(json, ms[0])
      case Err(_) => Contained(json, ms[1..], n)
      case Ok(b) => if |b| <= n then [Received(ms[0])] + Contained(json, ms[1..], n - |b|) else []
  }

  /** How many of the first `n` bytes belong to a message that is cut off. */
  function CutOff<V>(json: Json<V>, ms: seq<Message<V>>, n: nat): nat {
    if ms == [] then n
    else
      match WriteBytes(json, ms[0])
      case Err(_) => CutOff(json, ms[1..], n)
      case Ok(b) => if |b| <= n then CutOff(json, ms[1..], n - |b|) else n
  }

  /** Reading until the first error. */
  function ReadAll<V>(json: Json<V>, s: seq<Byte>): (seq<Message<V>>, Error)
    decreases |s|
  {
    match ReadMsg(json, s)
    case (Err(e), _) => ([], e)
    case (Ok(m), rest) => var (ms, e) := ReadAll(json, rest); ([m] + ms, e)
  }

  lemma ReadWrittenMsg<V(!new)>(json: Json<V>, m: Message<V>, rest: seq<Byte>)
    requires Faithful(json) && WriteBytes(json, m).Ok?
    ensures ReadMsg(json, WriteBytes(json, m).value + rest) == (Ok(Received(m)), rest)
  {
    hide MessageFrame, FrameBytes, ReadFrame, DecodeMessage;
    DecodeEncoded(json, m);
    ReadWrittenFrame(MessageFrame(json, m).value, rest);
  }

  /** Truncation: on any cut of the stream a reader returns exactly the wholly
      contained messages and then an error, EOF or unexpected EOF. */
  lemma {:induction false} ReadTruncated<V(!new)>(json: Json<V>, ms: seq<Message<V>>, n: nat)
    requires Faithful(json) && n <= |WriteAll(json, ms)|
    ensures ReadAll(json, WriteAll(json, ms)[..n]) ==
            (Contained(json, ms, n), if CutOff(json, ms, n) == 0 || CutOff(json, ms, n) == 8 then
                EOF else UnexpectedEOF)
    decreases |ms|
  {
    hide WriteBytes, ReadMsg, Received, Faithful;
    if ms == [] {
      ReadNothing(json);
      assert WriteAll(json, ms)[..n] == [];
    } else if WriteBytes(json, ms[0]).Err? {
      ReadTruncated(json, ms[1..], n);
      assert WriteAll(json, ms) == WriteAll(json, ms[1..]);
    } else {
      var b, rest := WriteBytes(json, ms[0]).value, WriteAll(json, ms[1..]);
      if |b| <= n {
        assert (b + rest)[..n] == b + rest[..n - |b|];
        ReadWrittenMsg(json, ms[0], rest[..n - |b|]);
        ReadTruncated(json, ms[1..], n - |b|);
      } else {
        assert (b + rest)[..n] == b[..n];
        ReadCutMsg(json, ms[0], n);
      }
    }
  }

  lemma ReadNothing<V(!new)>(json: Json<V>)
    ensures ReadMsg(json, []) == (Err(EOF), [])
  {
  }

  lemma ReadCutMsg<V(!new)>(json: Json<V>, m: Message<V>, n: nat)
    requires WriteBytes(json, m).Ok? && n < |WriteBytes(json, m).value|
    ensures ReadMsg(json, WriteBytes(json, m).value[..n]) == (Err(if n == 0 || n == 8 then EOF else UnexpectedEOF), [])
  {
    hide MessageFrame, FrameBytes, ReadFrame, DecodeMessage;
    ReadCutFrame(MessageFrame(json, m).value, n);
  }

  /** The messages that were not refused, as a reader gets them. */
  function Delivered<V>(json: Json<V>, ms: seq<Message<V>>): seq<Message<V>> {
    if ms == [] then []
    else (if WriteBytes(json, ms[0]).Ok? then [Received(ms[0])] else []) + Delivered(json, ms[1..])
  }

  lemma {:induction false} AllContained<V(!new)>(json: Json<V>, ms: seq<Message<V>>)
    ensures Contained(json, ms, |WriteAll(json, ms)|) == Delivered(json, ms)
    ensures CutOff(json, ms, |WriteAll(json, ms)|) == 0
    decreases |ms|
  {
    hide WriteBytes, Received;
    if ms != [] {
      AllContained(json, ms[1..]);
    }
  }

  /** Stream refinement: any mix of UDP packets and other messages, refused ones
      included, reads back as the sequence of the accepted ones, then EOF. */
  lemma StreamRoundTrip<V(!new)>(json: Json<V>, ms: seq<Message<V>>)
    requires Faithful(json)
    ensures ReadAll(json, WriteAll(json, ms)) == (Delivered(json, ms), EOF)
  {
    hide WriteAll, Contained, CutOff, Delivered, ReadAll, Faithful;
    var s := WriteAll(json, ms);
    assert s[..|s|] == s;
    ReadTruncated(json, ms, |s|);
    AllContained(json, ms);
  }
}

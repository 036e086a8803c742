/** The binary UDP packet body (pkg/msg/udp_binary.go): what the encoder writes,
    what the decoder accepts, and how the two fit together. */
module UdpPacket {
  import opened Options
  import opened Bytes

  const MAX_UDP_PAYLOAD_SIZE := 65507
  const MAX_FRAME_PAYLOAD_SIZE := 65536
  const FLAG_LOCAL := 1
  const FLAG_REMOTE := 2

  /** net.UDPAddr: an IP of any length, a port of any value, and a zone string. */
  datatype Addr = Addr(ip: seq<Byte>, port: int, zone: seq<Byte>)

  datatype Packet = Packet(content: seq<Byte>, local: Option<Addr>, remote: Option<Addr>)

  datatype Error =
    | NilPacket | MissingRemote | PayloadTooLong | PortOutOfRange | V4Zone | InvalidIP | ZoneTooLong | ZoneNotUtf8
    | FrameTooLong | BodyTooShort | ReservedFlags | TruncatedFamily | UnknownFamily | TruncatedAddress | TruncatedZone
    | TruncatedLength | TruncatedPayload | TrailingBytes
    | InLocal(cause: Error) | InRemote(cause: Error)

  datatype Result<+T> = Ok(value: T) | Err(error: Error)

  // ----- Addresses -----

  /** An IPv4-mapped IPv6 address, section 2.5.5.2 of RFC 4291. */
  predicate IsMapped(ip: seq<Byte>) {
    |ip| == 16 && (forall i :: 0 <= i < 10 ==> ip[i] == 0) && ip[10] == 0xFF && ip[11] == 0xFF
  }

  /** net.IP.To4 */
  function To4(ip: seq<Byte>): Option<seq<Byte>> {
    if |ip| == 4 then Some(ip) else if IsMapped(ip) then Some(ip[12..]) else None
  }

  /** The address the decoder gives back for an encoded one. */
  function Normal(a: Addr): Addr {
    if To4(a.ip).Some? then a.(ip := To4(a.ip).value) else a
  }

  function NormalPacket(p: Packet): Packet {
    Packet(p.content,
           if p.local.Some? then Some(Normal(p.local.value)) else None,
           if p.remote.Some? then Some(Normal(p.remote.value)) else None)
  }

  /** net.IP.Equal: a mapped address equals its IPv4 form. */
  predicate IPEqual(x: seq<Byte>, y: seq<Byte>) {
    x == y || (|x| == 4 && To4(y) == Some(x)) || (|y| == 4 && To4(x) == Some(y))
  }

  /** binaryUDPAddr: family 4 with 4 IP bytes or family 6 with 16. */
  datatype BinAddr = BinAddr(family: Byte, ip: seq<Byte>, port: nat, zone: seq<Byte>)

  predicate GoodBin(b: BinAddr) {
    && (b.family == 4 || b.family == 6) && |b.ip| == (if b.family == 4 then 4 else 16)
    && b.port < 65536 && |b.zone| <= 255 && ValidUtf8(b.zone) && (b.family == 4 ==> b.zone == [])
  }

  function ValidateAddr(a: Addr): (r: Result<BinAddr>)
    ensures r.Ok? ==> GoodBin(r.value)
  {
    if a.port < 0 || a.port > 65535 then Err(PortOutOfRange)
    else if To4(a.ip).Some? then
      if a.zone != [] then Err(V4Zone) else Ok(BinAddr(4, To4(a.ip).value, a.port, []))
    else if |a.ip| != 16 then Err(InvalidIP)
    else if |a.zone| > 255 then Err(ZoneTooLong)
    else if !ValidUtf8(a.zone) then Err(ZoneNotUtf8)
    else Ok(BinAddr(6, a.ip, a.port, a.zone))
  }

  function AddrLen(b: BinAddr): nat {
    1 + |b.ip| + 2 + 1 + |b.zone|
  }

  function AddrBytes(b: BinAddr): (s: seq<Byte>)
    requires GoodBin(b)
    ensures |s| == AddrLen(b)
  {
    [b.family] + b.ip + PutUint16(b.port) + [|b.zone|] + b.zone
  }

  // ----- The body -----

  function OptionalBytes(b: Option<BinAddr>): seq<Byte>
    requires b.Some? ==> GoodBin(b.value)
  {
    if b.Some? then AddrBytes(b.value) else []
  }

  function Body(local: Option<BinAddr>, remote: BinAddr, content: seq<Byte>): (s: seq<Byte>)
    requires (local.Some? ==> GoodBin(local.value)) && GoodBin(remote) && |content| < 65536
    ensures |s| == BodyLen(local, remote, content)
  {
    [if local.Some? then FLAG_LOCAL + FLAG_REMOTE else FLAG_REMOTE] + OptionalBytes(local) + AddrBytes(remote)
    + PutUint16(|content|) + content
  }

  function BodyLen(local: Option<BinAddr>, remote: BinAddr, content: seq<Byte>): nat {
    1 + 2 + |content| + (if local.Some? then AddrLen(local.value) else 0) + AddrLen(remote)
  }

  function ValidateOptional(a: Option<Addr>): (r: Result<Option<BinAddr>>)
    ensures r.Ok? ==> (r.value.Some? <==> a.Some?) && (r.value.Some? ==> GoodBin(r.value.value))
  {
    if a.None? then Ok(None)
    else match ValidateAddr(a.value)
      case Ok(b) => Ok(Some(b))
      case Err(e) => Err(InLocal(e))
  }

  /** EncodeUDPPacketBinary; None is the nil packet. */
  function Encode(packet: Option<Packet>): Result<seq<Byte>> {
    if packet.None? then Err(NilPacket)
    else
      var p := packet.value;
      if p.remote.None? then Err(MissingRemote)
      else if |p.content| > MAX_UDP_PAYLOAD_SIZE then Err(PayloadTooLong)
      else match ValidateOptional(p.local)
        case Err(e) => Err(e)
        case Ok(local) =>
          match ValidateAddr(p.remote.value)
          case Err(e) => Err(InRemote(e))
          case Ok(remote) =>
            if 2 + BodyLen(local, remote, p.content) > MAX_FRAME_PAYLOAD_SIZE then Err(FrameTooLong)
            else Ok(Body(local, remote, p.content))
  }

  // ----- The decoder -----

  /** readBinaryUDPAddr on what is left of the body: the address and the number of bytes it took. */
  function ParseAddr(s: seq<Byte>): (r: Result<(Addr, nat)>)
    ensures r.Ok? ==> r.value.1 <= |s|
  {
    if |s| == 0 then Err(TruncatedFamily)
    else if s[0] != 4 && s[0] != 6 then Err(UnknownFamily)
    else
      var ipLen := if s[0] == 4 then 4 else 16;
      if |s| - 1 < ipLen + 3 then Err(TruncatedAddress)
      else
        var zoneLen := s[1 + ipLen + 2];
        var zoneAt := 1 + ipLen + 3;
        if |s| - zoneAt < zoneLen then Err(TruncatedZone)
        else
          var zone := s[zoneAt..zoneAt + zoneLen];
          if s[0] == 4 && zoneLen != 0 then Err(V4Zone)
          else if !ValidUtf8(zone) then Err(ZoneNotUtf8)
          else Ok((Addr(s[1..1 + ipLen], Uint16(s[1 + ipLen..1 + ipLen + 2]), zone), zoneAt + zoneLen))
  }

  function ParsePayload(s: seq<Byte>): Result<seq<Byte>> {
    if |s| < 2 then Err(TruncatedLength)
    else
      var n := Uint16(s[..2]);
      if n > MAX_UDP_PAYLOAD_SIZE then Err(PayloadTooLong)
      else if |s| - 2 < n then Err(TruncatedPayload)
      else if |s| - 2 > n then Err(TrailingBytes)
      else Ok(s[2..])
  }

  function ParseRest(local: Option<Addr>, s: seq<Byte>): Result<Packet> {
    match ParseAddr(s)
    case Err(e) => Err(InRemote(e))
    case Ok((remote, n)) =>
      match ParsePayload(s[n..])
      case Err(e) => Err(e)
      case Ok(content) => Ok(Packet(content, local, Some(remote)))
  }

  /** DecodeUDPPacketBinary */
  function Decode(body: seq<Byte>): Result<Packet> {
    if |body| < 3 then Err(BodyTooShort)
    else if 2 + |body| > MAX_FRAME_PAYLOAD_SIZE then Err(FrameTooLong)
    else
      var flags := body[0];
      if flags / 4 != 0 then Err(ReservedFlags)
      else if (flags / FLAG_REMOTE) % 2 == 0 then Err(MissingRemote)
      else if flags % 2 == FLAG_LOCAL then
        match ParseAddr(body[1..])
        case Err(e) => Err(InLocal(e))
        case Ok((local, n)) => ParseRest(Some(local), body[1 + n..])
      else ParseRest(None, body[1..])
  }

  // ----- Parsing undoes printing -----

  function FromBin(b: BinAddr): Addr {
    Addr(b.ip, b.port, b.zone)
  }

  lemma ParsePrintedAddr(b: BinAddr, rest: seq<Byte>)
    requires GoodBin(b)
    ensures ParseAddr(AddrBytes(b) + rest) == Ok((FromBin(b), AddrLen(b)))
  {
    var s := AddrBytes(b) + rest;
    var n := |b.ip|;
    assert s[1..1 + n] == b.ip;
    assert s[1 + n..1 + n + 2] == PutUint16(b.port);
    assert s[1 + n + 2] == |b.zone|;
    assert s[1 + n + 3..1 + n + 3 + |b.zone|] == b.zone;
    hide ValidUtf8;
  }

  lemma ParsePrintedPayload(content: seq<Byte>)
    requires |content| <= MAX_UDP_PAYLOAD_SIZE
    ensures ParsePayload(PutUint16(|content|) + content) == Ok(content)
  {
    var s := PutUint16(|content|) + content;
    assert s[..2] == PutUint16(|content|) && s[2..] == content;
  }

  lemma ParsePrintedRest(local: Option<Addr>, remote: BinAddr, content: seq<Byte>)
    requires GoodBin(remote) && |content| <= MAX_UDP_PAYLOAD_SIZE
    ensures ParseRest(local, AddrBytes(remote) + PutUint16(|content|) + content) ==
            Ok(Packet(content, local, Some(FromBin(remote))))
  {
    hide ParseAddr, ParsePayload, AddrBytes, GoodBin;
    var tail := PutUint16(|content|) + content;
    var s := AddrBytes(remote) + PutUint16(|content|) + content;
    assert s == AddrBytes(remote) + tail;
    ParsePrintedAddr(remote, tail);
    assert s[AddrLen(remote)..] == tail;
    ParsePrintedPayload(content);
  }

  /** The decoder reads back every body that fits a frame. */
  lemma DecodeBody(local: Option<BinAddr>, remote: BinAddr, content: seq<Byte>)
    requires (local.Some? ==> GoodBin(local.value)) && GoodBin(remote) && |content| <= MAX_UDP_PAYLOAD_SIZE
    requires 2 + BodyLen(local, remote, content) <= MAX_FRAME_PAYLOAD_SIZE
    ensures Decode(Body(local, remote, content)) ==
            Ok(Packet(content, if local.Some? then Some(FromBin(local.value)) else None, Some(FromBin(remote))))
  {
    hide ParseAddr, ParseRest, AddrBytes, GoodBin;
    var body := Body(local, remote, content);
    var rest := AddrBytes(remote) + PutUint16(|content|) + content;
    if local.Some? {
      var b := local.value;
      assert body[1..] == AddrBytes(b) + rest;
      ParsePrintedAddr(b, rest);
      assert body[1 + AddrLen(b)..] == rest;
      ParsePrintedRest(Some(FromBin(b)), remote, content);
    } else {
      assert body[1..] == rest;
      ParsePrintedRest(None, remote, content);
    }
  }

  lemma ValidatedIsNormal(a: Addr)
    requires ValidateAddr(a).Ok?
    ensures FromBin(ValidateAddr(a).value) == Normal(a)
  {
    hide ValidUtf8;
  }

  /** Round trip: whatever the encoder accepts, the decoder gives back with IPv4
      addresses in their 4-byte form; the body has the precomputed length and its
      message frame fits the frame limit. */
  lemma RoundTrip(p: Packet)
    requires Encode(Some(p)).Ok?
    ensures Decode(Encode(Some(p)).value) == Ok(NormalPacket(p))
    ensures 2 + |Encode(Some(p)).value| <= MAX_FRAME_PAYLOAD_SIZE
    ensures |Encode(Some(p)).value| ==
            3 + |p.content| + (if p.local.Some? then AddrLen(ValidateAddr(p.local.value).value) else 0)
            + AddrLen(ValidateAddr(p.remote.value).value)
  {
    hide Decode, Body, ValidateAddr, GoodBin, AddrLen, Normal;
    var local := ValidateOptional(p.local).value;
    var remote := ValidateAddr(p.remote.value).value;
    ValidatedIsNormal(p.remote.value);
    if p.local.Some? { ValidatedIsNormal(p.local.value); }
    DecodeBody(local, remote, p.content);
  }

  // ----- The decoder is strict -----

  /** The family-6 form is kept for a mapped address: this is what a decoded address was printed from. */
  function RawBin(a: Addr): BinAddr
    requires 0 <= a.port
  {
    BinAddr(if |a.ip| == 4 then 4 else 6, a.ip, a.port, a.zone)
  }

  lemma PrintParsedAddr(s: seq<Byte>)
    requires ParseAddr(s).Ok?
    ensures var (a, n) := ParseAddr(s).value;
            0 <= a.port && GoodBin(RawBin(a)) && AddrBytes(RawBin(a)) == s[..n] && AddrLen(RawBin(a)) == n
  {
    hide ValidUtf8;
    var (a, n) := ParseAddr(s).value;
    var m := |a.ip|;
    var b := RawBin(a);
    PutOfUint16(s[1 + m..1 + m + 2]);
    assert AddrBytes(b) == [s[0]] + s[1..1 + m] + s[1 + m..1 + m + 2] + [s[1 + m + 2]] + s[1 + m + 3..n];
    assert s[..n] == [s[0]] + s[1..1 + m] + s[1 + m..1 + m + 2] + [s[1 + m + 2]] + s[1 + m + 3..n];
  }

  lemma PrintParsedRest(local: Option<Addr>, s: seq<Byte>)
    requires ParseRest(local, s).Ok?
    ensures var p := ParseRest(local, s).value;
            && p.remote.Some? && p.local == local && |p.content| <= MAX_UDP_PAYLOAD_SIZE
            && 0 <= p.remote.value.port && GoodBin(RawBin(p.remote.value))
            && AddrBytes(RawBin(p.remote.value)) + PutUint16(|p.content|) + p.content == s
  {
    hide ParseAddr, GoodBin, AddrBytes, RawBin;
    PrintParsedAddr(s);
    var (a, n) := ParseAddr(s).value;
    var t := s[n..];
    PutOfUint16(t[..2]);
    assert t == t[..2] + t[2..] && s == s[..n] + t;
  }

  /** The body a decoded packet came from, printed without normalising its addresses. */
  function RawBody(p: Packet): seq<Byte>
    requires p.remote.Some? && 0 <= p.remote.value.port && GoodBin(RawBin(p.remote.value)) && |p.content| < 65536
    requires p.local.Some? ==> 0 <= p.local.value.port && GoodBin(RawBin(p.local.value))
  {
    Body(if p.local.Some? then Some(RawBin(p.local.value)) else None, RawBin(p.remote.value), p.content)
  }

  predicate Printable(p: Packet) {
    && p.remote.Some? && 0 <= p.remote.value.port && GoodBin(RawBin(p.remote.value))
        && |p.content| <= MAX_UDP_PAYLOAD_SIZE
    && (p.local.Some? ==> 0 <= p.local.value.port && GoodBin(RawBin(p.local.value)))
  }

  /** The decoder is injective: an accepted body is determined by the packet it decodes to. */
  lemma DecodeIsInjective(body: seq<Byte>)
    requires Decode(body).Ok?
    ensures Printable(Decode(body).value) && RawBody(Decode(body).value) == body
  {
    hide ParseAddr, ParseRest, GoodBin, AddrBytes, RawBin;
    if body[0] % 2 == FLAG_LOCAL {
      var s := body[1..];
      PrintParsedAddr(s);
      var (a, n) := ParseAddr(s).value;
      assert body[1 + n..] == s[n..];
      PrintParsedRest(Some(a), s[n..]);
      assert body == [body[0]] + s[..n] + s[n..];
    } else {
      PrintParsedRest(None, body[1..]);
      assert body == [body[0]] + [] + body[1..];
    }
  }

  lemma ParseAddrOfPrefix(s: seq<Byte>, t: seq<Byte>)
    requires s <= t && ParseAddr(s).Ok?
    ensures ParseAddr(t) == ParseAddr(s)
  {
    hide ValidUtf8;
    var ipLen := if s[0] == 4 then 4 else 16;
    var at := 1 + ipLen + 3;
    assert s[1..1 + ipLen] == t[1..1 + ipLen];
    assert s[1 + ipLen..1 + ipLen + 2] == t[1 + ipLen..1 + ipLen + 2];
    assert s[at..at + s[1 + ipLen + 2]] == t[at..at + s[1 + ipLen + 2]];
  }

  lemma ParseRestOfPrefix(local: Option<Addr>, s: seq<Byte>, local': Option<Addr>, t: seq<Byte>)
    requires s <= t && ParseRest(local, s).Ok? && ParseRest(local', t).Ok?
    ensures s == t
  {
    hide ParseAddr;
    ParseAddrOfPrefix(s, t);
    var n := ParseAddr(s).value.1;
    assert s[n..][..2] == t[n..][..2];
  }

  /** No accepted body is a proper prefix of another accepted body. */
  lemma DecoderIsPrefixFree(b: seq<Byte>, c: seq<Byte>)
    requires b <= c && Decode(b).Ok? && Decode(c).Ok?
    ensures b == c
  {
    hide ParseAddr, ParseRest;
    assert b[0] == c[0] && b[1..] <= c[1..];
    if b[0] % 2 == FLAG_LOCAL {
      ParseAddrOfPrefix(b[1..], c[1..]);
      var (a, n) := ParseAddr(b[1..]).value;
      assert b[1 + n..] <= c[1 + n..];
      ParseRestOfPrefix(Some(a), b[1 + n..], Some(a), c[1 + n..]);
      assert b == b[..1 + n] + b[1 + n..] && c == c[..1 + n] + c[1 + n..];
    } else {
      ParseRestOfPrefix(None, b[1..], None, c[1..]);
      assert b == [b[0]] + b[1..] && c == [c[0]] + c[1..];
    }
  }

  // ----- Encoding what was decoded -----

  predicate MappedAddr(a: Option<Addr>) {
    a.Some? && IsMapped(a.value.ip)
  }

  /** How many bytes re-encoding saves on an address. */
  function Saved(a: Option<Addr>): nat {
    if MappedAddr(a) then 12 else 0
  }

  predicate ZonedMapped(a: Option<Addr>) {
    MappedAddr(a) && a.value.zone != []
  }

  lemma Revalidate(a: Addr)
    requires 0 <= a.port && GoodBin(RawBin(a))
    ensures IsMapped(a.ip) && a.zone != [] ==> ValidateAddr(a) == Err(V4Zone)
    ensures IsMapped(a.ip) && a.zone == [] ==> ValidateAddr(a) == Ok(BinAddr(4, a.ip[12..], a.port, []))
    ensures !IsMapped(a.ip) ==> ValidateAddr(a) == Ok(RawBin(a))
    ensures ValidateAddr(a).Ok? ==> AddrLen(ValidateAddr(a).value) + Saved(Some(a)) == AddrLen(RawBin(a))
    ensures IPEqual(Normal(a).ip, a.ip) && Normal(a).port == a.port && Normal(a).zone == a.zone
  {
    hide ValidUtf8;
  }

  /** Re-encoding an accepted body: refused exactly if it holds a mapped address
      with a zone; otherwise 12 bytes shorter for each mapped address, and decoding
      to the normal form of the same packet; the same bytes exactly if it holds no
      mapped address. */
  lemma Reencode(body: seq<Byte>)
    requires Decode(body).Ok?
    ensures var p := Decode(body).value;
            && (Encode(Some(p)).Err? <==> ZonedMapped(p.local) || ZonedMapped(p.remote))
            && (Encode(Some(p)).Ok? ==>
                  && |Encode(Some(p)).value| + Saved(p.local) + Saved(p.remote) == |body|
                  && Decode(Encode(Some(p)).value) == Ok(NormalPacket(p)))
            && (Encode(Some(p)) == Ok(body) <==> !MappedAddr(p.local) && !MappedAddr(p.remote))
  {
    var p := Decode(body).value;
    DecodedFits(body);
    DecodeIsInjective(body);
    hide Decode, GoodBin, AddrBytes, RawBin, IsMapped, ValidateAddr, AddrLen, Normal, IPEqual;
    Revalidate(p.remote.value);
    if p.local.Some? { Revalidate(p.local.value); }
    if Encode(Some(p)).Ok? { RoundTrip(p); }
  }

  lemma DecodedFits(body: seq<Byte>)
    requires Decode(body).Ok?
    ensures 2 + |body| <= MAX_FRAME_PAYLOAD_SIZE
  {
    hide ParseAddr, ParseRest;
  }

  lemma NormalValidates(a: Addr)
    ensures ValidateAddr(Normal(a)) == ValidateAddr(a) && !IsMapped(Normal(a).ip)
  {
  }

  /** The form an IPv4 address is held in does not matter to the encoder. */
  lemma EncodeIgnoresForm(p: Packet)
    ensures Encode(Some(NormalPacket(p))) == Encode(Some(p))
  {
    hide ValidateAddr, Normal, Body;
    if p.remote.Some? { NormalValidates(p.remote.value); }
    if p.local.Some? { NormalValidates(p.local.value); }
  }

  /** The encoder accepts a packet exactly if there is a body the decoder reads it from. */
  lemma EncodeAcceptsIff(p: Packet)
    ensures Encode(Some(p)).Ok? <==> exists body :: Decode(body) == Ok(NormalPacket(p))
  {
    hide Encode, Decode, NormalPacket;
    if Encode(Some(p)).Ok? {
      RoundTrip(p);
    } else if body :| Decode(body) == Ok(NormalPacket(p)) {
      Reencode(body);
      EncodeIgnoresForm(p);
      NormalIsNotMapped(p);
    }
  }

  lemma NormalIsNotMapped(p: Packet)
    ensures !MappedAddr(NormalPacket(p).local) && !MappedAddr(NormalPacket(p).remote)
  {
    hide Normal, IsMapped;
    if p.remote.Some? { NormalValidates(p.remote.value); }
    if p.local.Some? { NormalValidates(p.local.value); }
  }
}

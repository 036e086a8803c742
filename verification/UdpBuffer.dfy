/** EncodeUDPPacketBinary and DecodeUDPPacketBinary as the program runs them: over
    one buffer, with a moving offset. */
module UdpBuffer {
  import opened Options
  import opened Bytes
  import opened UdpPacket

  /** copy(body[offset:], src) followed by offset += len(src) */
  method CopyAt(body: array<Byte>, offset: nat, src: seq<Byte>) returns (next: nat)
    requires offset + |src| <= body.Length
    modifies body
    ensures next == offset + |src|
    ensures body[..next] == old(body[..offset]) + src
    ensures body[next..] == old(body[next..])
  {
    var i := 0;
    while i < |src|
      invariant 0 <= i <= |src|
      invariant body[..offset] == old(body[..offset])
      invariant body[offset..offset + i] == src[..i]
      invariant body[offset + i..] == old(body[offset + i..])
    {
      body[offset + i] := src[i];
      i := i + 1;
      assert body[offset..offset + i] == body[offset..offset + i - 1] + [body[offset + i - 1]];
    }
    next := offset + |src|;
    assert body[..next] == body[..offset] + body[offset..next];
  }

  /** putBinaryUDPAddr */
  method PutAddr(body: array<Byte>, offset: nat, addr: BinAddr) returns (next: nat)
    requires GoodBin(addr) && offset + AddrLen(addr) <= body.Length
    modifies body
    ensures next == offset + AddrLen(addr)
    ensures body[..next] == old(body[..offset]) + AddrBytes(addr)
  {
    next := CopyAt(body, offset, [addr.family]);
    next := CopyAt(body, next, addr.ip);
    next := CopyAt(body, next, PutUint16(addr.port));
    next := CopyAt(body, next, [|addr.zone|]);
    next := CopyAt(body, next, addr.zone);
  }

  method EncodeUDPPacketBinary(packet: Option<Packet>) returns (error: Option<Error>, body: array<Byte>)
    ensures match Encode(packet)
            case Ok(bytes) => error.None? && body[..] == bytes
            case Err(e) => error == Some(e)
    ensures error.None? ==> packet.Some? && Decode(body[..]) == Ok(NormalPacket(packet.value))
    ensures fresh(body)
  {
    body := new Byte[0];
    if packet.None? { return Some(NilPacket), body; }
    var p := packet.value;
    if p.remote.None? { return Some(MissingRemote), body; }
    if |p.content| > MAX_UDP_PAYLOAD_SIZE { return Some(PayloadTooLong), body; }
    var flags := 0;
    var bodyLen := 1 + 2 + |p.content|;
    var local: Option<BinAddr> := None;
    if p.local.Some? {
      flags := flags + FLAG_LOCAL;
      match ValidateAddr(p.local.value) {
        case Err(e) => return Some(InLocal(e)), body;
        case Ok(b) => local := Some(b);
      }
      bodyLen := bodyLen + AddrLen(local.value);
    }
    flags := flags + FLAG_REMOTE;
    var remote: BinAddr;
    match ValidateAddr(p.remote.value) {
      case Err(e) => return Some(InRemote(e)), body;
      case Ok(b) => remote := b;
    }
    bodyLen := bodyLen + AddrLen(remote);
    if 2 + bodyLen > MAX_FRAME_PAYLOAD_SIZE { return Some(FrameTooLong), body; }

    body := Fill(bodyLen, flags, local, remote, p.content);
    error := None;
    RoundTrip(p);
  }

  method Fill(bodyLen: nat, flags: Byte, local: Option<BinAddr>, remote: BinAddr, content: seq<Byte>)
    returns (body: array<Byte>)
    requires (local.Some? ==> GoodBin(local.value)) && GoodBin(remote) && |content| < 65536
    requires bodyLen == BodyLen(local, remote, content)
    requires flags == if local.Some? then FLAG_LOCAL + FLAG_REMOTE else FLAG_REMOTE
    ensures fresh(body) && body[..] == Body(local, remote, content)
  {
    hide GoodBin, AddrBytes, AddrLen;
    body := new Byte[bodyLen];
    body[0] := flags;
    var offset := 1;
    if flags % 2 == FLAG_LOCAL {
      offset := PutAddr(body, offset, local.value);
    }
    assert body[..offset] == [flags] + OptionalBytes(local);
    offset := PutAddr(body, offset, remote);
    offset := CopyAt(body, offset, PutUint16(|content|));
    offset := CopyAt(body, offset, content);
    assert body[..offset] == body[..];
  }

  /** readBinaryUDPAddr: advances the offset over one address. */
  method ReadAddr(body: seq<Byte>, start: nat) returns (r: Result<Addr>, offset: nat)
    requires start <= |body|
    ensures match ParseAddr(body[start..])
            case Ok((a, n)) => r == Ok(a) && offset == start + n <= |body|
            case Err(e) => r == Err(e)
  {
    hide ValidUtf8;
    offset := start;
    var s := body[start..];
    if offset >= |body| { return Err(TruncatedFamily), offset; }
    var family := body[offset];
    offset := offset + 1;
    if family != 4 && family != 6 { return Err(UnknownFamily), offset; }
    var ipLen := if family == 4 then 4 else 16;
    if |body| - offset < ipLen + 3 { return Err(TruncatedAddress), offset; }
    var ip := body[offset..offset + ipLen];
    assert ip == s[1..1 + ipLen];
    offset := offset + ipLen;
    var port := Uint16(body[offset..offset + 2]);
    assert body[offset..offset + 2] == s[1 + ipLen..1 + ipLen + 2];
    offset := offset + 2;
    var zoneLen := body[offset];
    offset := offset + 1;
    if |body| - offset < zoneLen { return Err(TruncatedZone), offset; }
    var zone := body[offset..offset + zoneLen];
    assert zone == s[1 + ipLen + 3..1 + ipLen + 3 + zoneLen];
    if family == 4 && zoneLen != 0 { return Err(V4Zone), offset; }
    if !ValidUtf8(zone) { return Err(ZoneNotUtf8), offset; }
    offset := offset + zoneLen;
    r := Ok(Addr(ip, port, zone));
  }

  method DecodeUDPPacketBinary(body: seq<Byte>) returns (r: Result<Packet>)
    ensures r == Decode(body)
    ensures r.Ok? ==> Printable(r.value) && RawBody(r.value) == body
  {
    hide ParseAddr, AddrBytes, RawBin, GoodBin;
    if |body| < 3 { return Err(BodyTooShort); }
    if 2 + |body| > MAX_FRAME_PAYLOAD_SIZE { return Err(FrameTooLong); }
    var flags := body[0];
    if flags / 4 != 0 { return Err(ReservedFlags); }
    if (flags / FLAG_REMOTE) % 2 == 0 { return Err(MissingRemote); }
    var offset := 1;
    var local: Option<Addr> := None;
    if flags % 2 == FLAG_LOCAL {
      var a, n := ReadAddr(body, offset);
      if a.Err? { return Err(InLocal(a.error)); }
      local, offset := Some(a.value), n;
    }
    var rest := body[offset..];
    assert Decode(body) == ParseRest(local, rest);
    var remote, next := ReadAddr(body, offset);
    if remote.Err? { return Err(InRemote(remote.error)); }
    assert body[next..] == rest[next - offset..];
    offset := next;
    r := ReadPayload(body, offset, local, remote.value);
    if r.Ok? { DecodeIsInjective(body); }
  }

  method ReadPayload(body: seq<Byte>, start: nat, local: Option<Addr>, remote: Addr) returns (r: Result<Packet>)
    requires start <= |body|
    ensures r == match ParsePayload(body[start..])
                 case Ok(content) => Ok(Packet(content, local, Some(remote)))
                 case Err(e) => Err(e)
  {
    var s := body[start..];
    var offset := start;
    if |body| - offset < 2 { return Err(TruncatedLength); }
    var payloadLen := Uint16(body[offset..offset + 2]);
    assert body[offset..offset + 2] == s[..2];
    offset := offset + 2;
    if payloadLen > MAX_UDP_PAYLOAD_SIZE { return Err(PayloadTooLong); }
    var remaining := |body| - offset;
    if remaining < payloadLen { return Err(TruncatedPayload); }
    if remaining > payloadLen { return Err(TrailingBytes); }
    assert body[offset..offset + payloadLen] == s[2..];
    r := Ok(Packet(body[offset..offset + payloadLen], local, Some(remote)));
  }
}

/** Capability negotiation and the crypto transcript (pkg/proto/wire/crypto.go,
    pkg/proto/wire/wire.go). */
module Negotiation {
  import opened Options
  import opened Bytes

  const MESSAGE_CODEC_JSON := "json"
  const UDP_PACKET_CODEC_BINARY := "binary-v1"
  const AES := "aes-256-gcm"
  const XCHACHA := "xchacha20-poly1305"
  const SUPPORTED_AEAD_ALGORITHMS := [AES, XCHACHA]
  const CRYPTO_RANDOM_SIZE := 32

  /** The fields of ClientHello the negotiation looks at. */
  datatype ClientHello = ClientHello(codecs: seq<string>, udpPacketCodecs: seq<string>, algorithms: seq<string>,
                                     clientRandom: seq<Byte>)

  /** ServerHello without its error text. */
  datatype ServerHello = ServerHello(codec: string, udpPacketCodec: string, algorithm: string, serverRandom: seq<Byte>)

  datatype Error =
    | UnsupportedCodec | BadClientRandom | NoAlgorithm | UnsupportedSelectedCodec | UnsupportedUdpCodec
    | UnadvertisedUdpCodec | UnknownAlgorithm | UnadvertisedAlgorithm | BadServerRandom

  predicate IsSupported(algorithm: string) {
    algorithm in SUPPORTED_AEAD_ALGORITHMS
  }

  /** The first algorithm of the client's list that the server supports. */
  ghost predicate IsFirstSupported(algorithms: seq<string>, algorithm: string) {
    exists i :: 0 <= i < |algorithms| && algorithms[i] == algorithm && IsSupported(algorithm)
                && forall j :: 0 <= j < i ==> !IsSupported(algorithms[j])
  }

  function Select(algorithms: seq<string>): Option<string> {
    if algorithms == [] then None
    else if IsSupported(algorithms[0]) then Some(algorithms[0])
    else Select(algorithms[1..])
  }

  /** SelectAEADAlgorithm */
  method SelectAEADAlgorithm(clientAlgorithms: seq<string>) returns (algorithm: string, ok: bool)
    ensures ok ==> IsFirstSupported(clientAlgorithms, algorithm)
    ensures !ok ==> forall a :: a in clientAlgorithms ==> !IsSupported(a)
    ensures Select(clientAlgorithms) == if ok then Some(algorithm) else None
  {
    var i := 0;
    while i < |clientAlgorithms|
      invariant 0 <= i <= |clientAlgorithms|
      invariant forall j :: 0 <= j < i ==> !IsSupported(clientAlgorithms[j])
      invariant Select(clientAlgorithms) == Select(clientAlgorithms[i..])
    {
      if IsSupported(clientAlgorithms[i]) { return clientAlgorithms[i], true; }
      i := i + 1;
    }
    return "", false;
  }

  lemma {:induction false} SelectIsFirst(algorithms: seq<string>)
    ensures Select(algorithms).Some? ==> IsFirstSupported(algorithms, Select(algorithms).value)
    ensures Select(algorithms).None? <==> forall a :: a in algorithms ==> !IsSupported(a)
    decreases |algorithms|
  {
    if algorithms != [] && !IsSupported(algorithms[0]) {
      var rest := algorithms[1..];
      SelectIsFirst(rest);
      if Select(rest).Some? {
        var i :| 0 <= i < |rest| && rest[i] == Select(rest).value && forall j :: 0 <= j < i ==> !IsSupported(rest[j]);
        forall j | 0 <= j < i + 1 ensures !IsSupported(algorithms[j]) {
          if j > 0 { assert algorithms[j] == rest[j - 1]; }
        }
        assert algorithms[i + 1] == Select(rest).value;
      } else {
        forall a | a in algorithms ensures !IsSupported(a) {
          assert a == algorithms[0] || a in rest;
        }
      }
    } else if algorithms != [] {
      assert algorithms[0] in algorithms;
    }
  }

  /** ValidateClientHello, with ValidateCryptoCapabilities. */
  function ValidateClientHello(h: ClientHello): Option<Error> {
    if MESSAGE_CODEC_JSON !in h.codecs then Some(UnsupportedCodec)
    else if |h.clientRandom| != CRYPTO_RANDOM_SIZE then Some(BadClientRandom)
    else if Select(h.algorithms).None? then Some(NoAlgorithm)
    else None
  }

  datatype Answer = Accept(hello: ServerHello) | Refuse(error: Error)

  /** NewServerHello; `random` is what newCryptoRandom returned. */
  function NewServerHello(h: ClientHello, random: seq<Byte>): Answer
    requires |random| == CRYPTO_RANDOM_SIZE
  {
    if ValidateClientHello(h).Some? then Refuse(ValidateClientHello(h).value)
    else
      match Select(h.algorithms)
      case None => Refuse(NoAlgorithm)
      case Some(algorithm) =>
        Accept(ServerHello(MESSAGE_CODEC_JSON,
                           if UDP_PACKET_CODEC_BINARY in h.udpPacketCodecs then UDP_PACKET_CODEC_BINARY else "",
                           algorithm, random))
  }

  function ValidateServerHelloForClient(h: ClientHello, s: ServerHello): Option<Error> {
    if s.codec != MESSAGE_CODEC_JSON then Some(UnsupportedSelectedCodec)
    else if s.udpPacketCodec != "" && s.udpPacketCodec != UDP_PACKET_CODEC_BINARY then Some(UnsupportedUdpCodec)
    else if s.udpPacketCodec != "" && s.udpPacketCodec !in h.udpPacketCodecs then Some(UnadvertisedUdpCodec)
    else if !IsSupported(s.algorithm) then Some(UnknownAlgorithm)
    else if s.algorithm !in h.algorithms then Some(UnadvertisedAlgorithm)
    else if |s.serverRandom| != CRYPTO_RANDOM_SIZE then Some(BadServerRandom)
    else None
  }

  /** Agreement: the server answers exactly the hellos with the JSON codec, a full
      random and a supported algorithm; the client accepts the answer, which names
      the client's first supported algorithm and uses the binary UDP codec exactly
      if the client offered it. */
  lemma NegotiationAgrees(h: ClientHello, random: seq<Byte>)
    requires |random| == CRYPTO_RANDOM_SIZE
    ensures NewServerHello(h, random).Accept? <==>
              MESSAGE_CODEC_JSON in h.codecs && |h.clientRandom| == CRYPTO_RANDOM_SIZE
              && exists a :: a in h.algorithms && IsSupported(a)
    ensures NewServerHello(h, random).Accept? ==>
              var s := NewServerHello(h, random).hello;
              && ValidateServerHelloForClient(h, s) == None
              && s.codec == MESSAGE_CODEC_JSON && s.serverRandom == random
              && IsFirstSupported(h.algorithms, s.algorithm)
              && (s.udpPacketCodec == UDP_PACKET_CODEC_BINARY <==> UDP_PACKET_CODEC_BINARY in h.udpPacketCodecs)
              && (s.udpPacketCodec == UDP_PACKET_CODEC_BINARY || s.udpPacketCodec == "")
  {
    SelectIsFirst(h.algorithms);
    hide Select;
  }

  /** The hello offers nothing that `h` does not offer. */
  ghost predicate OffersWithin(h': ClientHello, h: ClientHello) {
    && (forall a :: a in h'.algorithms ==> a in h.algorithms)
    && (forall u :: u in h'.udpPacketCodecs ==> u in h.udpPacketCodecs)
  }

  /** The client accepts an answer exactly if a server could have given it to an offer within
      the client's own. */
  lemma ClientAcceptsIff(h: ClientHello, s: ServerHello)
    ensures ValidateServerHelloForClient(h, s) == None <==>
              && |s.serverRandom| == CRYPTO_RANDOM_SIZE
              && exists h' :: OffersWithin(h', h) && NewServerHello(h', s.serverRandom) == Accept(s)
  {
    if ValidateServerHelloForClient(h, s) == None {
      var udp := if s.udpPacketCodec == "" then [] else [s.udpPacketCodec];
      var h' := ClientHello([MESSAGE_CODEC_JSON], udp, [s.algorithm], seq(CRYPTO_RANDOM_SIZE, _ => 0));
      assert OffersWithin(h', h) && NewServerHello(h', s.serverRandom) == Accept(s);
    }
    if |s.serverRandom| == CRYPTO_RANDOM_SIZE {
      forall h' | OffersWithin(h', h) && NewServerHello(h', s.serverRandom) == Accept(s)
        ensures ValidateServerHelloForClient(h, s) == None
      {
        NegotiationAgrees(h', s.serverRandom);
      }
    }
  }

  /** For a hello the server accepts, the client accepts the server's own answer, and that
      answer with another offered and supported algorithm, another full random, or without
      the UDP codec, and no other. */
  lemma AcceptedAnswers(h: ClientHello, random: seq<Byte>, s: ServerHello)
    requires |random| == CRYPTO_RANDOM_SIZE && NewServerHello(h, random).Accept?
    ensures var own := NewServerHello(h, random).hello;
            ValidateServerHelloForClient(h, s) == None <==>
              && s == own.(algorithm := s.algorithm, serverRandom := s.serverRandom, udpPacketCodec := s.udpPacketCodec)
              && s.algorithm in h.algorithms && IsSupported(s.algorithm) && |s.serverRandom| == CRYPTO_RANDOM_SIZE
              && (s.udpPacketCodec == own.udpPacketCodec || s.udpPacketCodec == "")
  {
    hide Select;
    NegotiationAgrees(h, random);
  }

  /** An algorithm, a codec or a UDP codec the client did not offer is refused. */
  lemma UnofferedIsRefused(h: ClientHello, s: ServerHello)
    requires s.algorithm !in h.algorithms || s.codec != MESSAGE_CODEC_JSON
             || (s.udpPacketCodec != "" && s.udpPacketCodec !in h.udpPacketCodecs)
    ensures ValidateServerHelloForClient(h, s).Some?
  {
  }

  /** PreferredAEADAlgorithms, either order. */
  function PreferredAEADAlgorithms(fastAES: bool): seq<string> {
    if fastAES then [AES, XCHACHA] else [XCHACHA, AES]
  }

  /** A hello made by the client itself is always accepted, with the client's
      preferred algorithm and the binary UDP codec. */
  lemma OwnHelloIsAccepted(fastAES: bool, clientRandom: seq<Byte>, random: seq<Byte>)
    requires |clientRandom| == CRYPTO_RANDOM_SIZE && |random| == CRYPTO_RANDOM_SIZE
    ensures NewServerHello(ClientHello([MESSAGE_CODEC_JSON], [UDP_PACKET_CODEC_BINARY],
            PreferredAEADAlgorithms(fastAES), clientRandom), random)
            == Accept(ServerHello(MESSAGE_CODEC_JSON, UDP_PACKET_CODEC_BINARY, PreferredAEADAlgorithms(fastAES)[0],
                random))
  {
  }

  // ----- The transcript -----

  /** The bytes of an ASCII string constant. */
  function Ascii(s: string): (b: seq<Byte>)
    ensures |b| == |s|
  {
    seq(|s|, i requires 0 <= i < |s| => s[i] as int % 128)
  }

  const TRANSCRIPT_LABEL := "frp wire v2 crypto transcript"
  const CLIENT_LABEL := "client hello"
  const SERVER_LABEL := "server hello"

  /** The bytes writeCryptoTranscriptPart feeds to the hash. */
  function Part(tag: seq<Byte>, payload: seq<Byte>): seq<Byte>
    requires |payload| < 0x1_0000_0000_0000_0000
  {
    [0] + tag + [0] + PutUint64(|payload|) + payload
  }

  /** The bytes HashCryptoTranscript feeds to the hash. */
  function Transcript(client: seq<Byte>, server: seq<Byte>): seq<Byte>
    requires |client| < 0x1_0000_0000_0000_0000 && |server| < 0x1_0000_0000_0000_0000
  {
    Ascii(TRANSCRIPT_LABEL) + Part(Ascii(CLIENT_LABEL), client) + Part(Ascii(SERVER_LABEL), server)
  }

  /** Takes one part with this tag off the front, by its own length field. */
  function ReadPart(tag: seq<Byte>, s: seq<Byte>): Option<(seq<Byte>, seq<Byte>)> {
    var n := |tag| + 2;
    if |s| < n + 8 || s[..n] != [0] + tag + [0] then None
    else
      var end := n + 8 + Uint64(s[n..n + 8]);
      if |s| < end then None else Some((s[n + 8..end], s[end..]))
  }

  lemma ReadPartReadsBack(tag: seq<Byte>, p: seq<Byte>, x: seq<Byte>)
    requires |p| < 0x1_0000_0000_0000_0000
    ensures ReadPart(tag, Part(tag, p) + x) == Some((p, x))
  {
    hide PutUint64, Uint64;
    var n, s := |tag| + 2, Part(tag, p) + x;
    assert s == ([0] + tag + [0]) + PutUint64(|p|) + p + x;
    assert s[..n] == [0] + tag + [0] && s[n..n + 8] == PutUint64(|p|);
    assert s[n + 8..] == p + x;
    assert s[n + 8..n + 8 + |p|] == p && s[n + 8 + |p|..] == x;
  }

  /** The client's hello comes first in the transcript and then the server's, each readable by
      its label and length; nothing follows. */
  lemma TranscriptReadsBack(client: seq<Byte>, server: seq<Byte>)
    requires |client| < 0x1_0000_0000_0000_0000 && |server| < 0x1_0000_0000_0000_0000
    ensures Ascii(TRANSCRIPT_LABEL) <= Transcript(client, server)
    ensures var rest := Transcript(client, server)[|TRANSCRIPT_LABEL|..];
            var first := ReadPart(Ascii(CLIENT_LABEL), rest);
            first.Some? && first.value.0 == client
            && ReadPart(Ascii(SERVER_LABEL), first.value.1) == Some((server, []))
  {
    hide Part, Ascii, ReadPart;
    var y := Part(Ascii(SERVER_LABEL), server);
    assert Transcript(client, server)[|TRANSCRIPT_LABEL|..] == Part(Ascii(CLIENT_LABEL), client) + y;
    ReadPartReadsBack(Ascii(CLIENT_LABEL), client, y);
    assert y + [] == y;
    ReadPartReadsBack(Ascii(SERVER_LABEL), server, []);
  }

  /** Two handshakes feed the same bytes to the hash only if both payloads agree. */
  lemma TranscriptIsInjective(c: seq<Byte>, s: seq<Byte>, c': seq<Byte>, s': seq<Byte>)
    requires |c| < 0x1_0000_0000_0000_0000 && |s| < 0x1_0000_0000_0000_0000
    requires |c'| < 0x1_0000_0000_0000_0000 && |s'| < 0x1_0000_0000_0000_0000
    requires Transcript(c, s) == Transcript(c', s')
    ensures c == c' && s == s'
  {
    hide Transcript, Ascii, ReadPart;
    TranscriptReadsBack(c, s);
    TranscriptReadsBack(c', s');
  }

  /** The hash state as the bytes written to it so far; SHA-256 is a function of them. */
  class Hash {
    var written: seq<Byte>

    constructor ()
      ensures written == []
    {
      written := [];
    }

    method Write(p: seq<Byte>)
      modifies this
      ensures written == old(written) + p
    {
      written := written + p;
    }

    method WriteCryptoTranscriptPart(tag: seq<Byte>, payload: seq<Byte>)
      requires |payload| < 0x1_0000_0000_0000_0000
      modifies this
      ensures written == old(written) + Part(tag, payload)
    {
      var length := PutUint64(|payload|);
      Write([0]);
      Write(tag);
      Write([0]);
      Write(length);
      Write(payload);
    }
  }

  /** HashCryptoTranscript up to the final Sum */
  method HashCryptoTranscript(client: seq<Byte>, server: seq<Byte>) returns (h: Hash)
    requires |client| < 0x1_0000_0000_0000_0000 && |server| < 0x1_0000_0000_0000_0000
    ensures h.written == Transcript(client, server)
  {
    hide Part, Ascii;
    h := new Hash();
    h.Write(Ascii(TRANSCRIPT_LABEL));
    h.WriteCryptoTranscriptPart(Ascii(CLIENT_LABEL), client);
    h.WriteCryptoTranscriptPart(Ascii(SERVER_LABEL), server);
  }
}

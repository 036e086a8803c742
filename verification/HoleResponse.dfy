/** The two answers of a hole-punching session (pkg/nathole/controller.go). */
module HoleResponse {
  import opened Options
  import opened NatFeatures
  import A = Analyzer
  import B = Behaviors

  // ----- Candidate ports -----

  datatype PortsRange = PortsRange(from: int, to: int)

  function Max3(a: int, b: int, c: int): int { Max(Max(a, b), c) }

  function Min3(a: int, b: int, c: int): int { Min(Min(a, b), c) }

  /** getRangePorts: at most one range, around the port of the last address. */
  function RangePorts(p: Parser, addrs: seq<string>, difference: int, maxNumber: int): Option<PortsRange> {
    if maxNumber <= 0 || addrs == [] then None
    else
      match Parse(p, addrs[|addrs| - 1])
      case None => None
      case Some(e) =>
        Some(PortsRange(Max3(e.num - difference - 5, e.num - maxNumber, 1),
                        Min3(e.num + difference + 5, e.num + maxNumber, 65535)))
  }

  /** The range holds exactly the legal ports within `difference + 5` and `maxNumber` of the
      last mapped port. */
  lemma RangeIsWindow(p: Parser, addrs: seq<string>, difference: int, maxNumber: int, q: int)
    requires RangePorts(p, addrs, difference, maxNumber).Some?
    ensures var r := RangePorts(p, addrs, difference, maxNumber).value;
            var port := Parse(p, addrs[|addrs| - 1]).value.num;
            r.from <= q <= r.to <==>
              1 <= q <= 65535 && -Min(difference + 5, maxNumber) <= q - port <= Min(difference + 5, maxNumber)
  {
  }

  /** A legal port with a difference that classification reports is always in its own
      range, and the range has at most 2 * maxNumber + 1 ports. */
  lemma RangeHoldsPort(p: Parser, addrs: seq<string>, difference: int, maxNumber: int)
    requires RangePorts(p, addrs, difference, maxNumber).Some?
    requires difference >= 0 && 1 <= Parse(p, addrs[|addrs| - 1]).value.num <= 65535
    ensures var r := RangePorts(p, addrs, difference, maxNumber).value;
            var port := Parse(p, addrs[|addrs| - 1]).value.num;
            1 <= r.from <= port <= r.to <= 65535 && r.to - r.from <= 2 * Min(difference + 5, maxNumber)
  {
  }

  // ----- Compaction -----

  /** The result of slices.Compact: one of each run of equal neighbours. */
  function Compacted(s: seq<string>): (t: seq<string>)
    ensures |t| <= |s|
  {
    if |s| < 2 then s
    else if s[0] == s[1] then Compacted(s[1..])
    else [s[0]] + Compacted(s[1..])
  }

  /** What slices.Compact leaves in the caller's own slice: the freed tail is cleared. */
  function CompactedInPlace(s: seq<string>): (t: seq<string>)
    ensures |t| == |s|
  {
    Compacted(s) + seq(|s| - |Compacted(s)|, _ => "")
  }

  predicate NoRepeats(s: seq<string>) {
    forall i :: 0 < i < |s| ==> s[i - 1] != s[i]
  }

  lemma {:induction false} CompactedIsMeant(s: seq<string>)
    ensures NoRepeats(Compacted(s))
    ensures forall a :: a in Compacted(s) <==> a in s
    ensures s != [] ==> Compacted(s) != [] && Compacted(s)[0] == s[0]
    ensures |Compacted(s)| == |s| <==> NoRepeats(s)
    ensures NoRepeats(s) ==> Compacted(s) == s
  {
    if |s| >= 2 {
      var rest := s[1..];
      CompactedIsMeant(rest);
      assert s == [s[0]] + rest;
      assert rest[0] == s[1];
      assert NoRepeats(s) <==> s[0] != s[1] && NoRepeats(rest) by { NoRepeatsHead(s); }
      if s[0] != s[1] { NoRepeatsHead([s[0]] + Compacted(rest)); }
    }
  }

  /** An address at the end is kept exactly if it differs from the one before it, and comes last. */
  lemma {:induction false} CompactedAppend(s: seq<string>, a: string)
    ensures Compacted(s + [a]) == if s != [] && s[|s| - 1] == a then Compacted(s) else Compacted(s) + [a]
    decreases |s|
  {
    var u := s + [a];
    if |s| >= 2 {
      assert u[1..] == s[1..] + [a];
      CompactedAppend(s[1..], a);
    } else if |s| == 1 {
      assert u[1..] == [a];
    }
  }

  lemma NoRepeatsHead(s: seq<string>)
    requires |s| >= 2
    ensures NoRepeats(s) <==> s[0] != s[1] && NoRepeats(s[1..])
  {
    var rest := s[1..];
    forall i | 1 < i < |s| ensures s[i - 1] != s[i] <==> rest[i - 2] != rest[i - 1] { }
    if s[0] != s[1] && NoRepeats(rest) {
      forall i | 0 < i < |s| ensures s[i - 1] != s[i] {
        if i > 1 { assert rest[i - 2] != rest[i - 1]; }
      }
    }
    if NoRepeats(s) {
      forall i | 0 < i < |rest| ensures rest[i - 1] != rest[i] { assert s[i] != s[i + 1]; }
    }
  }

  // ----- The answers -----

  datatype Response = Response(
    mode: nat,
    candidateAddrs: seq<string>,
    assistedAddrs: seq<string>,
    role: B.Role,
    ttl: nat,
    sendDelayMs: nat,
    readTimeoutMs: int,
    sendRandomPorts: nat,
    listenRandomPorts: nat,
    candidatePorts: Option<PortsRange>)

  /** newNatHoleResponse: the ports are taken from the slice after its compaction. */
  function NewNatHoleResponse(p: Parser, mode: nat, addrs: seq<string>, assisted: seq<string>, b: B.Behavior,
                              readTimeoutMs: int, difference: int): Response {
    Response(mode, Compacted(addrs), Compacted(assisted), b.role, b.ttl, b.sendDelayMs, readTimeoutMs,
             b.portsRandomNumber, b.listenRandomPorts,
             RangePorts(p, CompactedInPlace(addrs), difference, b.portsRangeNumber))
  }

  /** A port range is sent exactly if the behaviour asks for one, the peer's last address
      parses and no two neighbouring addresses are equal: compaction clears the last slot
      otherwise, and the empty string has no port. */
  lemma RangeIsSentIff(p: Parser, mode: nat, addrs: seq<string>, assisted: seq<string>, b: B.Behavior,
                       readTimeoutMs: int, difference: int)
    requires p.split("") == None
    ensures NewNatHoleResponse(p, mode, addrs, assisted, b, readTimeoutMs, difference).candidatePorts.Some? <==>
              b.portsRangeNumber > 0 && addrs != [] && NoRepeats(addrs) && Parse(p, addrs[|addrs| - 1]).Some?
    ensures NoRepeats(addrs) ==>
              NewNatHoleResponse(p, mode, addrs, assisted, b, readTimeoutMs, difference).candidatePorts
              == RangePorts(p, addrs, difference, b.portsRangeNumber)
  {
    CompactedIsMeant(addrs);
    hide Compacted, NoRepeats;
    if addrs != [] && !NoRepeats(addrs) {
      assert CompactedInPlace(addrs)[|addrs| - 1] == "";
    } else {
      assert CompactedInPlace(addrs) == addrs;
    }
  }

  // ----- The range guessed from a classification -----

  lemma SpreadIsNatural(f: NatFeature, es: seq<Endpoint>, ips: seq<string>)
    requires IsFeatureOf(f, es, ips)
    ensures f.portsDifference >= 0
  {
    var b: nat :| IsBase(es, b) && Describes(f, es[b..]);
    var rest := es[b..];
    if f.behavior.PortChanged? { assert rest[0].num - rest[0].num <= f.portsDifference; }
  }

  /** From the mapped addresses to the range: for a classified list without equal neighbours
      and with a legal last port, a behaviour that asks for a range gets one; it holds the
      last port, stays in 1..65535 and has at most 2 * min(difference + 5, number) + 1 ports. */
  lemma GuessedRange(p: Parser, mode: nat, addrs: seq<string>, assisted: seq<string>, b: B.Behavior,
                     readTimeoutMs: int, f: NatFeature, ips: seq<string>)
    requires p.split("") == None && AllParse(p, addrs) && IsFeatureOf(f, Endpoints(p, addrs), ips)
    requires addrs != [] && NoRepeats(addrs) && b.portsRangeNumber > 0
    requires 1 <= Endpoints(p, addrs)[|addrs| - 1].num <= 65535
    ensures var ports := NewNatHoleResponse(p, mode, addrs, assisted, b, readTimeoutMs,
            f.portsDifference).candidatePorts;
            && ports.Some?
            && 1 <= ports.value.from <= Endpoints(p, addrs)[|addrs| - 1].num <= ports.value.to <= 65535
            && ports.value.to - ports.value.from + 1 <= 2 * Min(f.portsDifference + 5, b.portsRangeNumber) + 1
  {
    hide NoRepeats, IsFeatureOf, NewNatHoleResponse, Min;
    SpreadIsNatural(f, Endpoints(p, addrs), ips);
    RangeIsSentIff(p, mode, addrs, assisted, b, readTimeoutMs, f.portsDifference);
    RangeHoldsPort(p, addrs, f.portsDifference, b.portsRangeNumber);
  }

  lemma RangeIsThere(p: Parser, addrs: seq<string>, difference: int, number: int)
    requires AllParse(p, addrs) && addrs != [] && number > 0
    ensures RangePorts(p, addrs, difference, number).Some?
  {
    assert addrs[|addrs| - 1] in addrs;
  }

  /** If only ports changed and the behaviour's number is not below the difference, every
      legal port that was observed is in the range. */
  lemma GuessedRangeCoversObserved(p: Parser, addrs: seq<string>, f: NatFeature, number: nat,
                                   base: nat, k: nat)
    requires AllParse(p, addrs) && IsBase(Endpoints(p, addrs), base) && Describes(f, Endpoints(p, addrs)[base..])
    requires f.behavior.PortChanged? && f.portsDifference <= number && number > 0
    requires base <= k < |addrs| && 1 <= Endpoints(p, addrs)[k].num <= 65535
    ensures var ports := RangePorts(p, addrs, f.portsDifference, number);
            ports.Some? && ports.value.from <= Endpoints(p, addrs)[k].num <= ports.value.to
  {
    hide IsBase, RangePorts, IPsDiffer, PortsDiffer;
    var es := Endpoints(p, addrs);
    var rest := es[base..];
    var last := |rest| - 1;
    RangeIsThere(p, addrs, f.portsDifference, number);
    assert rest[k - base] == es[k] && rest[last] == es[|es| - 1];
    assert rest[k - base].num - rest[last].num <= f.portsDifference;
    assert rest[last].num - rest[k - base].num <= f.portsDifference;
    RangeIsWindow(p, addrs, f.portsDifference, number, es[k].num);
  }

  /** The failing input: two equal neighbours, and no range is sent. */
  lemma RepeatedAddressGetsNoRange(p: Parser, mode: nat, a: string, assisted: seq<string>, b: B.Behavior,
                                   readTimeoutMs: int, difference: int)
    requires p.split("") == None
    ensures NewNatHoleResponse(p, mode, [a, a], assisted, b, readTimeoutMs, difference).candidatePorts.None?
  {
    RangeIsSentIff(p, mode, [a, a], assisted, b, readTimeoutMs, difference);
    assert [a, a][0] == [a, a][1];
  }

  // ----- Both answers -----

  datatype Peer = Peer(mapped: seq<string>, assisted: seq<string>, feature: NatFeature)

  datatype Answers = Answers(client: Response, visitor: Response)

  /** The answers of analysis once both NATs are classified and `pair` is recommended. */
  function Analysis(p: Parser, mode: nat, pair: B.Pair, client: Peer, visitor: Peer): Answers {
    var wait := Max(pair.client.sendDelayMs, pair.visitor.sendDelayMs) + 5000
                + if pair.client.listenRandomPorts > 0 || pair.visitor.listenRandomPorts > 0 then 30000 else 0;
    Answers(
      NewNatHoleResponse(p, mode, visitor.mapped, visitor.assisted, pair.client, wait - pair.client.sendDelayMs,
                         visitor.feature.portsDifference),
      NewNatHoleResponse(p, mode, client.mapped, client.assisted, pair.visitor, wait - pair.visitor.sendDelayMs,
                         client.feature.portsDifference))
  }

  predicate InRange(r: PortsRange, q: int) {
    r.from <= q <= r.to
  }

  /** The legal ports at most `w` away from `port`. */
  predicate InWindow(port: int, w: int, q: int) {
    1 <= q <= 65535 && -w <= q - port <= w
  }

  /** The ports guessed for a peer: exactly the legal ones near its last mapped port, by its own
      port difference and the number asked for; none if no range was asked for, the last
      address does not parse or neighbouring addresses are equal. */
  ghost predicate GuessesPeer(p: Parser, ports: Option<PortsRange>, number: nat, peer: Peer) {
    if number > 0 && peer.mapped != [] && NoRepeats(peer.mapped) && Parse(p, peer.mapped[|peer.mapped| - 1]).Some? then
      var port := Parse(p, peer.mapped[|peer.mapped| - 1]).value.num;
      ports.Some?
      && forall q :: InRange(ports.value, q) <==> InWindow(port, Min(peer.feature.portsDifference + 5, number), q)
    else ports.None?
  }

  lemma ResponseGuesses(p: Parser, mode: nat, peer: Peer, b: B.Behavior, readTimeoutMs: int)
    requires p.split("") == None
    ensures GuessesPeer(p, NewNatHoleResponse(p, mode, peer.mapped, peer.assisted, b, readTimeoutMs,
                                              peer.feature.portsDifference).candidatePorts, b.portsRangeNumber, peer)
  {
    hide NoRepeats, NewNatHoleResponse, Min;
    RangeIsSentIff(p, mode, peer.mapped, peer.assisted, b, readTimeoutMs, peer.feature.portsDifference);
    if RangePorts(p, peer.mapped, peer.feature.portsDifference, b.portsRangeNumber).Some? {
      var r := RangePorts(p, peer.mapped, peer.feature.portsDifference, b.portsRangeNumber).value;
      var port := Parse(p, peer.mapped[|peer.mapped| - 1]).value.num;
      forall q
        ensures InRange(r, q) <==> InWindow(port, Min(peer.feature.portsDifference + 5, b.portsRangeNumber), q)
      {
        RangeIsWindow(p, peer.mapped, peer.feature.portsDifference, b.portsRangeNumber, q);
      }
    }
  }

  /** What one peer is told: to play its part, and about the other peer's addresses and ports. */
  ghost predicate Tells(p: Parser, r: Response, b: B.Behavior, other: Peer) {
    && r.role == b.role && r.ttl == b.ttl && r.sendDelayMs == b.sendDelayMs
    && r.sendRandomPorts == b.portsRandomNumber && r.listenRandomPorts == b.listenRandomPorts
    && (forall x :: x in r.candidateAddrs <==> x in other.mapped) && NoRepeats(r.candidateAddrs)
    && (forall x :: x in r.assistedAddrs <==> x in other.assisted) && NoRepeats(r.assistedAddrs)
    && (p.split("") == None ==> GuessesPeer(p, r.candidatePorts, b.portsRangeNumber, other))
  }

  lemma ResponseTells(p: Parser, mode: nat, peer: Peer, b: B.Behavior, readTimeoutMs: int)
    ensures Tells(p, NewNatHoleResponse(p, mode, peer.mapped, peer.assisted, b, readTimeoutMs,
                                        peer.feature.portsDifference), b, peer)
  {
    CompactedIsMeant(peer.mapped);
    CompactedIsMeant(peer.assisted);
    hide GuessesPeer, NoRepeats, Compacted, RangePorts, CompactedInPlace;
    if p.split("") == None { ResponseGuesses(p, mode, peer, b, readTimeoutMs); }
  }

  /** The two peers agree: same mode, opposite parts, and both are done at the same moment,
      five seconds after the sender starts, or thirty-five when ports are sprayed; each is
      told its own part and the other's addresses and ports. */
  ghost predicate Agree(p: Parser, a: Answers, mode: nat, pair: B.Pair, client: Peer, visitor: Peer) {
    var sender := if a.client.role.Sender? then a.client else a.visitor;
    var receiver := if a.client.role.Sender? then a.visitor else a.client;
    && a.client.mode == a.visitor.mode == mode
    && sender.role.Sender? && receiver.role.Receiver?
    && receiver.sendDelayMs == 0
    && sender.sendDelayMs + sender.readTimeoutMs == receiver.readTimeoutMs
    && sender.readTimeoutMs == (if receiver.listenRandomPorts > 0 then 35000 else 5000)
    && Tells(p, a.client, pair.client, visitor) && Tells(p, a.visitor, pair.visitor, client)
  }

  lemma AnswersAgree(p: Parser, mode: nat, index: nat, client: Peer, visitor: Peer)
    requires index < |B.Rows(mode)|
    ensures var pair := B.Assigned(mode, index, client.feature);
            Agree(p, Analysis(p, mode, pair, client, visitor), mode, pair, client, visitor)
  {
    hide B.Rows, B.Assigned, Compacted, RangePorts, CompactedInPlace, Tells;
    var pair := B.Assigned(mode, index, client.feature);
    B.RolesAreAssigned(mode, index, client.feature);
    var a := Analysis(p, mode, pair, client, visitor);
    ResponseTells(p, mode, visitor, pair.client, a.client.readTimeoutMs);
    ResponseTells(p, mode, client, pair.visitor, a.visitor.readTimeoutMs);
  }

  /** Over every history of the analyzer, whatever two peers ask next, their answers agree. */
  lemma EveryAnswerAgrees(p: Parser, states: seq<A.Records>, calls: seq<A.Timed>, i: nat, key: string,
                          client: Peer, visitor: Peer)
    requires A.History(states, calls) && i < |states|
    ensures var e := A.Choice(A.RecordOf(states[i], key, client.feature, visitor.feature));
            var pair := B.Assigned(e.mode, e.index, client.feature);
            Agree(p, Analysis(p, e.mode, pair, client, visitor), e.mode, pair, client, visitor)
  {
    hide A.History, A.Choice, A.RecordOf, B.Assigned, B.Rows, Agree, Analysis, B.WellFormed;
    A.EveryRecommendationIsUsable(states, calls, i, key, client.feature, visitor.feature);
    var e := A.Choice(A.RecordOf(states[i], key, client.feature, visitor.feature));
    AnswersAgree(p, e.mode, e.index, client, visitor);
  }
}

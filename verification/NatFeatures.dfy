/** NAT classification from mapped addresses (pkg/nathole/classify.go). */
module NatFeatures {
  import opened Options

  datatype NatType = EasyNAT | HardNAT

  datatype Behavior = NoChange | IPChanged | PortChanged | BothChanged

  datatype NatFeature = NatFeature(natType: NatType, behavior: Behavior, portsDifference: int,
                                   regularPortsChange: bool, publicNetwork: bool)

  datatype Error = NotEnoughAddresses | BadAddress

  datatype Result = Ok(feature: NatFeature) | Err(error: Error)

  /** net.SplitHostPort and strconv.Atoi. */
  datatype Parser = Parser(split: string -> Option<(string, string)>, atoi: string -> Option<int>)

  datatype Endpoint = Endpoint(ip: string, port: string, num: int)

  function Parse(p: Parser, addr: string): Option<Endpoint> {
    match p.split(addr)
    case None => None
    case Some((ip, port)) =>
      match p.atoi(port)
      case None => None
      case Some(num) => Some(Endpoint(ip, port, num))
  }

  predicate AllParse(p: Parser, addrs: seq<string>) {
    forall a :: a in addrs ==> Parse(p, a).Some?
  }

  function Endpoints(p: Parser, addrs: seq<string>): (es: seq<Endpoint>)
    requires AllParse(p, addrs)
    ensures |es| == |addrs|
    ensures forall i :: 0 <= i < |es| ==> Some(es[i]) == Parse(p, addrs[i])
  {
    seq(|addrs|, i requires 0 <= i < |addrs| => assert addrs[i] in addrs; Parse(p, addrs[i]).value)
  }

  /** The address the others are compared with: the first with a host, or the last if none has one. */
  ghost predicate IsBase(es: seq<Endpoint>, b: nat) {
    && b < |es|
    && (forall i :: 0 <= i < b ==> es[i].ip == "")
    && (es[b].ip == "" ==> b == |es| - 1)
  }

  ghost predicate IPsDiffer(es: seq<Endpoint>) {
    exists i, j :: 0 <= i < |es| && 0 <= j < |es| && es[i].ip != es[j].ip
  }

  ghost predicate PortsDiffer(es: seq<Endpoint>) {
    exists i, j :: 0 <= i < |es| && 0 <= j < |es| && es[i].port != es[j].port
  }

  /** The largest distance between two port numbers. */
  ghost predicate IsSpread(es: seq<Endpoint>, d: int) {
    && (exists i, j :: 0 <= i < |es| && 0 <= j < |es| && es[i].num - es[j].num == d)
    && (forall i, j :: 0 <= i < |es| && 0 <= j < |es| ==> es[i].num - es[j].num <= d)
  }

  /** What the behaviour, the type and the port difference say about the compared addresses. */
  ghost predicate Describes(f: NatFeature, es: seq<Endpoint>) {
    && (f.behavior.IPChanged? || f.behavior.BothChanged? <==> IPsDiffer(es))
    && (f.behavior.PortChanged? || f.behavior.BothChanged? <==> PortsDiffer(es))
    && (f.natType.EasyNAT? <==> f.behavior.NoChange?)
    && (if f.behavior.PortChanged? then IsSpread(es, f.portsDifference) else f.portsDifference == 0)
    && (f.regularPortsChange <==> f.behavior.PortChanged? && 1 <= f.portsDifference <= 5)
  }

  ghost predicate HasHost(es: seq<Endpoint>, hosts: seq<string>) {
    exists i :: 0 <= i < |es| && es[i].ip in hosts
  }

  /** What ClassifyNATFeature says of its addresses: the part from the base on is
      described, and the public flag looks at every address. */
  ghost predicate IsFeatureOf(f: NatFeature, es: seq<Endpoint>, localIPs: seq<string>) {
    && (f.publicNetwork <==> HasHost(es, localIPs))
    && exists b: nat :: IsBase(es, b) && Describes(f, es[b..])
  }

  /** What the loop knows after the addresses `es`, with base b. */
  ghost predicate Seen(es: seq<Endpoint>, b: nat, baseIP: string, basePort: string, portMax: int, portMin: int,
                       ipChanged: bool, portChanged: bool) {
    && IsBase(es, b) && baseIP == es[b].ip && basePort == es[b].port
    && (ipChanged <==> exists j :: b <= j < |es| && es[j].ip != baseIP)
    && (portChanged <==> exists j :: b <= j < |es| && es[j].port != basePort)
    && (exists j :: b <= j < |es| && es[j].num == portMax)
    && (exists j :: b <= j < |es| && es[j].num == portMin)
    && (forall j :: b <= j < |es| ==> portMin <= es[j].num <= portMax)
  }

  /** One more address while no host has been seen. */
  lemma SeenBase(es: seq<Endpoint>, e: Endpoint)
    requires forall i :: 0 <= i < |es| ==> es[i].ip == ""
    ensures Seen(es + [e], |es|, e.ip, e.port, e.num, e.num, false, false)
  {
    var all := es + [e];
    assert all[|es|] == e;
  }

  /** One more address after the base. */
  lemma SeenMore(es: seq<Endpoint>, e: Endpoint, b: nat, baseIP: string, basePort: string, portMax: int, portMin: int,
                 ipChanged: bool, portChanged: bool)
    requires Seen(es, b, baseIP, basePort, portMax, portMin, ipChanged, portChanged) && baseIP != ""
    ensures Seen(es + [e], b, baseIP, basePort, Max(portMax, e.num), Min(portMin, e.num),
                 ipChanged || e.ip != baseIP, portChanged || e.port != basePort)
  {
    var all := es + [e];
    assert all[|es|] == e;
    var i :| b <= i < |es| && es[i].num == portMax;
    var j :| b <= j < |es| && es[j].num == portMin;
    assert all[i] == es[i] && all[j] == es[j];
    if ipChanged {
      var k :| b <= k < |es| && es[k].ip != baseIP;
      assert all[k] == es[k];
    }
    if portChanged {
      var k :| b <= k < |es| && es[k].port != basePort;
      assert all[k] == es[k];
    }
  }

  function Max(a: int, b: int): int { if a >= b then a else b }

  function Min(a: int, b: int): int { if a <= b then a else b }

  /** ClassifyNATFeature: fails exactly on fewer than two addresses or one that does not
      parse, and otherwise describes the addresses from the base on. */
  method ClassifyNATFeature(p: Parser, addresses: seq<string>, localIPs: seq<string>) returns (r: Result)
    ensures |addresses| <= 1 ==> r == Err(NotEnoughAddresses)
    ensures |addresses| > 1 && !AllParse(p, addresses) ==> r == Err(BadAddress)
    ensures |addresses| > 1 && AllParse(p, addresses) ==>
              r.Ok? && IsFeatureOf(r.feature, Endpoints(p, addresses), localIPs)
  {
    if |addresses| <= 1 { return Err(NotEnoughAddresses); }
    var ipChanged, portChanged, publicNetwork := false, false, false;
    var baseIP, basePort, portMax, portMin := "", "", 0, 0;
    ghost var es: seq<Endpoint>, b: nat := [], 0;
    var i := 0;
    while i < |addresses|
      invariant 0 <= i <= |addresses| && |es| == i
      invariant forall j :: 0 <= j < i ==> Parse(p, addresses[j]) == Some(es[j])
      invariant publicNetwork <==> HasHost(es, localIPs)
      invariant baseIP == "" ==> forall j :: 0 <= j < i ==> es[j].ip == ""
      invariant i > 0 ==> Seen(es, b, baseIP, basePort, portMax, portMin, ipChanged, portChanged)
      invariant i == 0 ==> baseIP == ""
      invariant baseIP == "" ==> !ipChanged && !portChanged
    {
      hide Seen, Describes;
      var parsed := Parse(p, addresses[i]);
      if parsed.None? {
        assert addresses[i] in addresses;
        return Err(BadAddress);
      }
      var e := parsed.value;
      ghost var prev := es;
      es := es + [e];
      assert HasHost(es, localIPs) <==> HasHost(prev, localIPs) || e.ip in localIPs by {
        assert es[|prev|] == e && forall j :: 0 <= j < |prev| ==> es[j] == prev[j];
      }
      if e.ip in localIPs { publicNetwork := true; }
      i := i + 1;
      if baseIP == "" {
        SeenBase(prev, e);
        baseIP, basePort, portMax, portMin := e.ip, e.port, e.num, e.num;
        b := |prev|;
        continue;
      }
      SeenMore(prev, e, b, baseIP, basePort, portMax, portMin, ipChanged, portChanged);
      portMax := Max(portMax, e.num);
      portMin := Min(portMin, e.num);
      if baseIP != e.ip { ipChanged := true; }
      if basePort != e.port { portChanged := true; }
    }
    hide IsBase;
    var natType, behavior := EasyNAT, NoChange;
    if ipChanged && portChanged {
      natType, behavior := HardNAT, BothChanged;
    } else if ipChanged {
      natType, behavior := HardNAT, IPChanged;
    } else if portChanged {
      natType, behavior := HardNAT, PortChanged;
    }
    var portsDifference, regular := 0, false;
    if behavior == PortChanged {
      portsDifference := portMax - portMin;
      if portsDifference <= 5 && portsDifference >= 1 { regular := true; }
    }
    r := Ok(NatFeature(natType, behavior, portsDifference, regular, publicNetwork));
    assert AllParse(p, addresses) by {
      forall a | a in addresses ensures Parse(p, a).Some? {
        var j :| 0 <= j < |addresses| && addresses[j] == a;
        assert Parse(p, addresses[j]) == Some(es[j]);
      }
    }
    assert es == Endpoints(p, addresses);
    SeenDescribes(es, b, baseIP, basePort, portMax, portMin, ipChanged, portChanged, r.feature);
  }

  /** From "differs from the base" to "two of them differ". */
  lemma SeenDescribes(es: seq<Endpoint>, b: nat, baseIP: string, basePort: string, portMax: int, portMin: int,
                      ipChanged: bool, portChanged: bool, f: NatFeature)
    requires Seen(es, b, baseIP, basePort, portMax, portMin, ipChanged, portChanged)
    requires f.behavior == if ipChanged then if portChanged then BothChanged else IPChanged
                           else if portChanged then PortChanged else NoChange
    requires f.natType == if ipChanged || portChanged then HardNAT else EasyNAT
    requires f.portsDifference == if f.behavior.PortChanged? then portMax - portMin else 0
    requires f.regularPortsChange <==> f.behavior.PortChanged? && 1 <= f.portsDifference <= 5
    ensures IsBase(es, b) && Describes(f, es[b..])
  {
    var rest := es[b..];
    assert rest[0] == es[b];
    assert forall j :: b <= j < |es| ==> es[j] == rest[j - b];
    if ipChanged {
      var j :| b <= j < |es| && es[j].ip != baseIP;
      assert rest[j - b].ip != rest[0].ip;
    }
    if portChanged {
      var j :| b <= j < |es| && es[j].port != basePort;
      assert rest[j - b].port != rest[0].port;
    }
    var i :| b <= i < |es| && es[i].num == portMax;
    var j :| b <= j < |es| && es[j].num == portMin;
    assert rest[i - b].num - rest[j - b].num == portMax - portMin;
  }

  /** The description settles the feature up to the public-network flag. */
  lemma DescriptionIsUnique(f: NatFeature, g: NatFeature, es: seq<Endpoint>)
    requires Describes(f, es) && Describes(g, es)
    ensures g == f.(publicNetwork := g.publicNetwork)
  {
    if f.behavior.PortChanged? {
      var i, j :| 0 <= i < |es| && 0 <= j < |es| && es[i].num - es[j].num == f.portsDifference;
      var k, l :| 0 <= k < |es| && 0 <= l < |es| && es[k].num - es[l].num == g.portsDifference;
      assert es[i].num - es[j].num <= g.portsDifference;
      assert es[k].num - es[l].num <= f.portsDifference;
    }
  }

  /** Neither order nor repetition matters: two lists with the same set of endpoints
      have the same descriptions. */
  lemma DescriptionIgnoresOrder(f: NatFeature, es: seq<Endpoint>, fs: seq<Endpoint>)
    requires forall e :: e in es <==> e in fs
    requires Describes(f, es)
    ensures Describes(f, fs)
  {
    DiffersIgnoresOrder(es, fs);
    if f.behavior.PortChanged? { SpreadIgnoresOrder(es, fs, f.portsDifference); }
  }

  lemma DiffersIgnoresOrder(es: seq<Endpoint>, fs: seq<Endpoint>)
    requires forall e :: e in es <==> e in fs
    ensures IPsDiffer(es) <==> IPsDiffer(fs)
    ensures PortsDiffer(es) <==> PortsDiffer(fs)
  {
    if IPsDiffer(es) {
      var i, j :| 0 <= i < |es| && 0 <= j < |es| && es[i].ip != es[j].ip;
      assert es[i] in fs && es[j] in fs;
    }
    if IPsDiffer(fs) {
      var i, j :| 0 <= i < |fs| && 0 <= j < |fs| && fs[i].ip != fs[j].ip;
      assert fs[i] in es && fs[j] in es;
    }
    if PortsDiffer(es) {
      var i, j :| 0 <= i < |es| && 0 <= j < |es| && es[i].port != es[j].port;
      assert es[i] in fs && es[j] in fs;
    }
    if PortsDiffer(fs) {
      var i, j :| 0 <= i < |fs| && 0 <= j < |fs| && fs[i].port != fs[j].port;
      assert fs[i] in es && fs[j] in es;
    }
  }

  lemma SpreadIgnoresOrder(es: seq<Endpoint>, fs: seq<Endpoint>, d: int)
    requires forall e :: e in es <==> e in fs
    requires IsSpread(es, d)
    ensures IsSpread(fs, d)
  {
    var i, j :| 0 <= i < |es| && 0 <= j < |es| && es[i].num - es[j].num == d;
    assert es[i] in fs && es[j] in fs;
    forall k, l | 0 <= k < |fs| && 0 <= l < |fs| ensures fs[k].num - fs[l].num <= d {
      assert fs[k] in es && fs[l] in es;
    }
  }

  lemma HostIgnoresOrder(es: seq<Endpoint>, fs: seq<Endpoint>, hosts: seq<string>)
    requires forall e :: e in es ==> e in fs
    ensures HasHost(es, hosts) ==> HasHost(fs, hosts)
  {
    if HasHost(es, hosts) {
      var i :| 0 <= i < |es| && es[i].ip in hosts;
      assert es[i] in fs;
    }
  }

  /** Lists that begin with a host are compared as a whole, so two such lists of the same
      endpoints, in any order and with any repetition, are classified alike. */
  lemma ClassificationIgnoresOrder(f: NatFeature, g: NatFeature, es: seq<Endpoint>, fs: seq<Endpoint>,
                                   localIPs: seq<string>)
    requires IsFeatureOf(f, es, localIPs) && IsFeatureOf(g, fs, localIPs)
    requires forall e :: e in es <==> e in fs
    requires |es| > 0 && |fs| > 0 && es[0].ip != "" && fs[0].ip != ""
    ensures f == g
  {
    hide Describes, HasHost;
    var b: nat :| IsBase(es, b) && Describes(f, es[b..]);
    var c: nat :| IsBase(fs, c) && Describes(g, fs[c..]);
    assert b == 0 && c == 0;
    assert es[b..] == es && fs[c..] == fs;
    DescriptionIgnoresOrder(f, es, fs);
    DescriptionIsUnique(f, g, fs);
    HostIgnoresOrder(es, fs, localIPs);
    HostIgnoresOrder(fs, es, localIPs);
  }

  function Count(fs: seq<NatFeature>, p: NatFeature -> bool): nat {
    if fs == [] then 0 else Count(fs[..|fs| - 1], p) + if p(fs[|fs| - 1]) then 1 else 0
  }

  /** ClassifyFeatureCount: easy and hard partition the list; the regular ones are hard. */
  method ClassifyFeatureCount(features: seq<NatFeature>) returns (easy: nat, hard: nat, regular: nat)
    ensures easy == Count(features, (f: NatFeature) => f.natType.EasyNAT?)
    ensures regular == Count(features, (f: NatFeature) => f.natType.HardNAT? && f.regularPortsChange)
    ensures easy + hard == |features| && regular <= hard
  {
    easy, hard, regular := 0, 0, 0;
    var i := 0;
    while i < |features|
      invariant 0 <= i <= |features|
      invariant easy == Count(features[..i], (f: NatFeature) => f.natType.EasyNAT?)
      invariant regular == Count(features[..i], (f: NatFeature) => f.natType.HardNAT? && f.regularPortsChange)
      invariant easy + hard == i && regular <= hard
    {
      var feature := features[i];
      assert features[..i + 1][..i] == features[..i];
      i := i + 1;
      if feature.natType == EasyNAT {
        easy := easy + 1;
        continue;
      }
      hard := hard + 1;
      if feature.regularPortsChange { regular := regular + 1; }
    }
    assert features[..i] == features;
  }
}

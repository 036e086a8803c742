/** What the analyzer remembers of each pair of peers, and its whole call history
    (pkg/nathole/analysis.go). */
module Analyzer {
  import opened NatFeatures
  import opened Recommender
  import B = Behaviors

  // ----- A fresh record -----

  /** getBehaviorScoresByMode2 */
  function Scores(mode: nat, sender: int, receiver: int): (s: seq<Entry>)
    ensures |s| == |B.Rows(mode)|
  {
    seq(|B.Rows(mode)|, i requires 0 <= i < |B.Rows(mode)| =>
      Entry(mode, i, if B.Rows(mode)[i].client.role.Sender? then sender else receiver))
  }

  function Mode0(c: NatFeature, v: NatFeature): seq<Entry> {
    if c.publicNetwork then Scores(0, 0, 1)
    else if v.publicNetwork then Scores(0, 1, 0)
    else Scores(0, 0, 0)
  }

  predicate IsRegular(f: NatFeature) {
    f.natType.HardNAT? && f.regularPortsChange
  }

  /** The behaviours newMakeHoleRecords lists for two NATs. */
  function Fresh(c: NatFeature, v: NatFeature): seq<Entry> {
    if c.natType.EasyNAT? && v.natType.EasyNAT? then Mode0(c, v)
    else if c.natType != v.natType then
      if IsRegular(c) || IsRegular(v) then Scores(1, 0, 0) + Scores(2, 0, 0) + Mode0(c, v)
      else Scores(2, 0, 0) + Scores(1, 0, 0) + Mode0(c, v)
    else if IsRegular(c) && IsRegular(v) then Scores(3, 0, 0) + Scores(4, 0, 0)
    else if IsRegular(c) || IsRegular(v) then Scores(4, 0, 0)
    else Scores(0, 1, 1) + Scores(1, 1, 1) + Scores(3, 1, 1)
  }

  method GetBehaviorScoresByMode2(mode: nat, sender: int, receiver: int) returns (scores: seq<Entry>)
    ensures scores == Scores(mode, sender, receiver)
  {
    hide B.Rows;
    var behaviors := B.Rows(mode);
    scores := [];
    for i := 0 to |behaviors|
      invariant |scores| == i && scores == Scores(mode, sender, receiver)[..i]
    {
      var score := receiver;
      if behaviors[i].client.role == B.Sender { score := sender; }
      scores := scores + [Entry(mode, i, score)];
    }
  }

  lemma CountTwo(c: NatFeature, v: NatFeature, p: NatFeature -> bool)
    ensures Count([c, v], p) == (if p(c) then 1 else 0) + if p(v) then 1 else 0
  {
    assert [c, v][..1] == [c] && [c][..0] == [];
    assert Count([c], p) == Count([], p) + if p(c) then 1 else 0;
  }

  method NewScores(c: NatFeature, v: NatFeature) returns (scores: seq<Entry>)
    ensures scores == Fresh(c, v)
  {
    hide Scores;
    var easy, hard, regular := ClassifyFeatureCount([c, v]);
    CountTwo(c, v, (f: NatFeature) => f.natType.EasyNAT?);
    CountTwo(c, v, (f: NatFeature) => f.natType.HardNAT? && f.regularPortsChange);
    var mode0: seq<Entry>;
    if c.publicNetwork {
      mode0 := GetBehaviorScoresByMode2(0, 0, 1);
    } else if v.publicNetwork {
      mode0 := GetBehaviorScoresByMode2(0, 1, 0);
    } else {
      mode0 := GetBehaviorScoresByMode2(0, 0, 0);
    }
    if easy == 2 {
      scores := mode0;
    } else if hard == 1 && regular == 1 {
      var s1 := GetBehaviorScoresByMode2(1, 0, 0);
      var s2 := GetBehaviorScoresByMode2(2, 0, 0);
      scores := s1 + s2 + mode0;
    } else if hard == 1 && regular == 0 {
      var s2 := GetBehaviorScoresByMode2(2, 0, 0);
      var s1 := GetBehaviorScoresByMode2(1, 0, 0);
      scores := s2 + s1 + mode0;
    } else if hard == 2 && regular == 2 {
      var s3 := GetBehaviorScoresByMode2(3, 0, 0);
      var s4 := GetBehaviorScoresByMode2(4, 0, 0);
      scores := s3 + s4;
    } else if hard == 2 && regular == 1 {
      scores := GetBehaviorScoresByMode2(4, 0, 0);
    } else {
      var s0 := GetBehaviorScoresByMode2(0, 1, 1);
      var s1 := GetBehaviorScoresByMode2(1, 1, 1);
      var s3 := GetBehaviorScoresByMode2(3, 1, 1);
      scores := s0 + s1 + s3;
    }
  }

  // ----- Every record lists real, distinct behaviours -----

  predicate Listed(s: seq<Entry>) {
    forall i :: 0 <= i < |s| ==> s[i].index < |B.Rows(s[i].mode)|
  }

  predicate ScoresOk(s: seq<Entry>) {
    s != [] && Listed(s) && Distinct(s) && ScoresCapped(s)
  }

  lemma ScoresAreOk(mode: nat, sender: int, receiver: int)
    requires sender <= 10 && receiver <= 10
    ensures ScoresOk(Scores(mode, sender, receiver))
    ensures forall e :: e in Scores(mode, sender, receiver) ==> e.mode == mode
  {
    assert B.Rows(mode) != [];
    hide B.Rows;
  }

  lemma AppendOk(s: seq<Entry>, t: seq<Entry>)
    requires ScoresOk(s) && ScoresOk(t)
    requires forall e, f :: e in s && f in t ==> e.mode != f.mode
    ensures ScoresOk(s + t)
  {
    hide B.Rows;
    var u := s + t;
    forall i, j | 0 <= i < j < |u| ensures !(u[i].mode == u[j].mode && u[i].index == u[j].index) {
      if i < |s| <= j { assert s[i] in s && t[j - |s|] in t; }
    }
  }

  lemma FreshIsOk(c: NatFeature, v: NatFeature)
    ensures ScoresOk(Fresh(c, v))
  {
    hide Scores, ScoresOk;
    var mode0 := Mode0(c, v);
    ScoresAreOk(0, 0, 0);
    ScoresAreOk(0, 0, 1);
    ScoresAreOk(0, 1, 0);
    ScoresAreOk(1, 0, 0);
    ScoresAreOk(2, 0, 0);
    if c.natType.EasyNAT? && v.natType.EasyNAT? {
    } else if c.natType != v.natType {
      AppendOk(Scores(1, 0, 0), Scores(2, 0, 0));
      AppendOk(Scores(1, 0, 0) + Scores(2, 0, 0), mode0);
      AppendOk(Scores(2, 0, 0), Scores(1, 0, 0));
      AppendOk(Scores(2, 0, 0) + Scores(1, 0, 0), mode0);
    } else {
      HardIsOk();
    }
  }

  lemma HardIsOk()
    ensures ScoresOk(Scores(3, 0, 0) + Scores(4, 0, 0)) && ScoresOk(Scores(4, 0, 0))
    ensures ScoresOk(Scores(0, 1, 1) + Scores(1, 1, 1) + Scores(3, 1, 1))
  {
    hide Scores, ScoresOk;
    ScoresAreOk(3, 0, 0);
    ScoresAreOk(4, 0, 0);
    AppendOk(Scores(3, 0, 0), Scores(4, 0, 0));
    ScoresAreOk(0, 1, 1);
    ScoresAreOk(1, 1, 1);
    ScoresAreOk(3, 1, 1);
    AppendOk(Scores(0, 1, 1), Scores(1, 1, 1));
    AppendOk(Scores(0, 1, 1) + Scores(1, 1, 1), Scores(3, 1, 1));
  }

  lemma SameBehaviorsOk(s: seq<Entry>, t: seq<Entry>)
    requires ScoresOk(s) && SameBehaviors(s, t) && ScoresCapped(t)
    ensures ScoresOk(t)
  {
    hide B.Rows;
    forall i, j | 0 <= i < j < |t| ensures !(t[i].mode == t[j].mode && t[i].index == t[j].index) {
      assert !(s[i].mode == s[j].mode && s[i].index == s[j].index);
    }
  }

  // ----- The public peer of two easy NATs -----

  /** The mode-0 rows in which the client receives, and those in which the visitor does. */
  const CLIENT_RECEIVES: seq<nat> := [1, 3, 5, 8, 9]
  const VISITOR_RECEIVES: seq<nat> := [0, 2, 4, 6, 7]

  lemma Mode0Roles(i: nat)
    requires i < 10
    ensures |B.Rows(0)| == 10
    ensures B.Rows(0)[i].client.role.Receiver? <==> i in CLIENT_RECEIVES
    ensures B.Rows(0)[i].client.role.Sender? <==> i in VISITOR_RECEIVES
    ensures B.Rows(0)[i].visitor.role.Receiver? <==> i in VISITOR_RECEIVES
    ensures i in CLIENT_RECEIVES <==> i !in VISITOR_RECEIVES
  {
    B.RowsAreWellFormed(0, i);
  }

  lemma Mode0Ones()
    ensures |Scores(0, 0, 1)| == 10 && OnesAt(Scores(0, 0, 1), CLIENT_RECEIVES)
    ensures |Scores(0, 1, 0)| == 10 && OnesAt(Scores(0, 1, 0), VISITOR_RECEIVES)
  {
    Mode0Roles(0);
    hide B.Rows;
    forall i: nat | i < 10
      ensures Scores(0, 0, 1)[i].score == if i in CLIENT_RECEIVES then 1 else 0
      ensures Scores(0, 1, 0)[i].score == if i in VISITOR_RECEIVES then 1 else 0
    {
      Mode0Roles(i);
    }
  }

  /** The documented rule "a public peer is always the receiver" holds for the first five
      recommendations; from then on the rows go round and the public client also sends. */
  lemma PublicClientReceivesIff(c: NatFeature, v: NatFeature, n: nat)
    requires c.natType.EasyNAT? && v.natType.EasyNAT? && c.publicNetwork
    ensures |Fresh(c, v)| == |B.Rows(0)| == 10
    ensures B.Rows(0)[Pick(Fresh(c, v), n)].client.role.Receiver? <==> n < 5 || (n - 5) % 10 in CLIENT_RECEIVES
  {
    hide B.Rows, Scores, OnesAt, Pick;
    Mode0Ones();
    PickOfOnes(Fresh(c, v), CLIENT_RECEIVES, n);
    Mode0Roles(Pick(Fresh(c, v), n));
  }

  /** The same for a public visitor, which receives where the client sends. */
  lemma PublicVisitorReceivesIff(c: NatFeature, v: NatFeature, n: nat)
    requires c.natType.EasyNAT? && v.natType.EasyNAT? && !c.publicNetwork && v.publicNetwork
    ensures |Fresh(c, v)| == |B.Rows(0)| == 10
    ensures B.Rows(0)[Pick(Fresh(c, v), n)].visitor.role.Receiver? <==> n < 5 || (n - 5) % 10 in VISITOR_RECEIVES
  {
    hide B.Rows, Scores, OnesAt, Pick;
    Mode0Ones();
    PickOfOnes(Fresh(c, v), VISITOR_RECEIVES, n);
    Mode0Roles(Pick(Fresh(c, v), n));
  }

  // ----- What a new record recommends, in order -----

  /** Mode and index of the n-th recommendation (counted from 0), with no success reported. */
  function Nth(s: seq<Entry>, n: nat): (nat, nat)
    requires s != []
  {
    var t := PickedTimes(s, n);
    (t[FirstMax(t)].mode, t[FirstMax(t)].index)
  }

  lemma {:induction false} PickedTimesFrame(s: seq<Entry>, n: nat)
    requires s != []
    ensures SameBehaviors(s, PickedTimes(s, n))
  {
    if n > 0 {
      PickedTimesFrame(s, n - 1);
      PickedFrame(PickedTimes(s, n - 1));
    }
  }

  lemma NthIsPick(s: seq<Entry>, n: nat)
    requires s != []
    ensures Nth(s, n) == (s[Pick(s, n)].mode, s[Pick(s, n)].index)
  {
    PickedTimesFrame(s, n);
    hide PickedTimes, FirstMax;
  }

  /** The mode-0 rows that are a point ahead because a peer is public. */
  function PublicRows(c: NatFeature, v: NatFeature): seq<nat> {
    if c.publicNetwork then CLIENT_RECEIVES else if v.publicNetwork then VISITOR_RECEIVES else []
  }

  lemma Mode0IsOnes(c: NatFeature, v: NatFeature)
    ensures |Mode0(c, v)| == 10 && OnesAt(Mode0(c, v), PublicRows(c, v))
    ensures forall i :: 0 <= i < 10 ==> Mode0(c, v)[i].mode == 0 && Mode0(c, v)[i].index == i
  {
    Mode0Ones();
    Mode0Roles(0);
    hide B.Rows;
  }

  lemma Lengths()
    ensures |B.Rows(0)| == 10 && |B.Rows(1)| == 6 && |B.Rows(2)| == 3 && |B.Rows(3)| == 6 && |B.Rows(4)| == 3
  {
  }

  function Shifted(rows: seq<nat>, d: nat): (t: seq<nat>)
    ensures |t| == |rows| && forall i :: 0 <= i < |t| ==> t[i] == rows[i] + d
  {
    seq(|rows|, i requires 0 <= i < |rows| => rows[i] + d)
  }

  lemma ZerosThenOnes(z: seq<Entry>, s: seq<Entry>, rows: seq<nat>)
    requires AllScored(z, 0) && OnesAt(s, rows)
    ensures OnesAt(z + s, Shifted(rows, |z|))
  {
    var t, u := Shifted(rows, |z|), z + s;
    forall i | 0 <= i < |u| ensures u[i].score == if i in t then 1 else 0 {
      if i >= |z| && i - |z| in rows {
        var k :| 0 <= k < |rows| && rows[k] == i - |z|;
        assert t[k] == i;
      }
      if i in t {
        var k :| 0 <= k < |t| && t[k] == i;
        assert rows[k] in rows && u[i] == s[i - |z|];
      }
    }
  }

  /** The n-th recommendation of a list of zeros followed by the mode-0 rows. */
  lemma NthBeforeMode0(z: seq<Entry>, c: NatFeature, v: NatFeature, n: nat)
    requires AllScored(z, 0)
    ensures z + Mode0(c, v) != [] && |Mode0(c, v)| == 10
    ensures var k := |PublicRows(c, v)|;
            Nth(z + Mode0(c, v), n) ==
            if n < k then (0, PublicRows(c, v)[n])
            else var m := (n - k) % (|z| + 10);
                 if m < |z| then (z[m].mode, z[m].index) else (0, m - |z|)
  {
    hide OnesAt, Pick, Mode0, Nth;
    var s, rows := z + Mode0(c, v), Shifted(PublicRows(c, v), |z|);
    Mode0IsOnes(c, v);
    ZerosThenOnes(z, Mode0(c, v), PublicRows(c, v));
    PickOfOnes(s, rows, n);
    NthIsPick(s, n);
    if n < |rows| { assert rows[n] == PublicRows(c, v)[n] + |z| && PublicRows(c, v)[n] < 10; }
  }

  lemma ZeroScores(mode: nat, score: int)
    ensures AllScored(Scores(mode, score, score), score)
    ensures forall i :: 0 <= i < |B.Rows(mode)| ==>
              Scores(mode, score, score)[i].mode == mode && Scores(mode, score, score)[i].index == i
  {
    hide B.Rows;
  }

  /** Two easy NATs: the rows of mode 0 in turn, after those in which a public peer receives. */
  lemma BothEasyTries(c: NatFeature, v: NatFeature, n: nat)
    requires c.natType.EasyNAT? && v.natType.EasyNAT?
    ensures Fresh(c, v) != []
    ensures var k := |PublicRows(c, v)|;
            Nth(Fresh(c, v), n) == (0, if n < k then PublicRows(c, v)[n] else (n - k) % 10)
  {
    hide Nth, Mode0, PublicRows;
    NthBeforeMode0([], c, v, n);
    assert [] + Mode0(c, v) == Mode0(c, v);
  }

  /** One hard NAT: a regular one tries the six rows of mode 1, then the three of mode 2, an
      irregular one mode 2 and then mode 1; then both the ten rows of mode 0, and again from
      the start. The mode-0 rows in which a public peer receives come before all. */
  lemma LoneHardTries(c: NatFeature, v: NatFeature, n: nat)
    requires c.natType != v.natType
    ensures Fresh(c, v) != []
    ensures var k := |PublicRows(c, v)|;
            var regular := if c.natType.HardNAT? then c.regularPortsChange else v.regularPortsChange;
            Nth(Fresh(c, v), n) ==
            if n < k then (0, PublicRows(c, v)[n])
            else var m := (n - k) % 19;
                 if m >= 9 then (0, m - 9)
                 else if regular then if m < 6 then (1, m) else (2, m - 6)
                 else if m < 3 then (2, m) else (1, m - 3)
  {
    hide Nth, Mode0, PublicRows, Scores, B.Rows;
    Lengths();
    ZeroScores(1, 0);
    ZeroScores(2, 0);
    var regular := if c.natType.HardNAT? then c.regularPortsChange else v.regularPortsChange;
    if regular {
      NthBeforeMode0(Scores(1, 0, 0) + Scores(2, 0, 0), c, v, n);
    } else {
      NthBeforeMode0(Scores(2, 0, 0) + Scores(1, 0, 0), c, v, n);
    }
  }

  lemma NthOfEqual(s: seq<Entry>, score: int, n: nat)
    requires s != [] && AllScored(s, score)
    ensures Nth(s, n) == (s[n % |s|].mode, s[n % |s|].index)
  {
    hide Nth, Pick, AllScored;
    RoundsForever(s, score, n);
    NthIsPick(s, n);
  }

  /** Two hard NATs: two regular ones try mode 3 and then mode 4, one regular one only mode 4,
      none the modes 0, 1 and 3, each in turn and again; a public peer makes no difference. */
  lemma BothHardTries(c: NatFeature, v: NatFeature, n: nat)
    requires c.natType.HardNAT? && v.natType.HardNAT?
    ensures Fresh(c, v) != []
    ensures Nth(Fresh(c, v), n) ==
            if c.regularPortsChange && v.regularPortsChange then
              if n % 9 < 6 then (3, n % 9) else (4, n % 9 - 6)
            else if c.regularPortsChange || v.regularPortsChange then (4, n % 3)
            else if n % 22 < 10 then (0, n % 22)
            else if n % 22 < 16 then (1, n % 22 - 10)
            else (3, n % 22 - 16)
  {
    hide Nth, Scores, B.Rows;
    Lengths();
    ZeroScores(3, 0);
    ZeroScores(4, 0);
    ZeroScores(0, 1);
    ZeroScores(1, 1);
    ZeroScores(3, 1);
    if c.regularPortsChange && v.regularPortsChange {
      NthOfEqual(Fresh(c, v), 0, n);
    } else if c.regularPortsChange || v.regularPortsChange {
      NthOfEqual(Fresh(c, v), 0, n);
    } else {
      NthOfEqual(Fresh(c, v), 1, n);
    }
  }

  /** The failing input of the documented rule: the sixth recommendation makes the public client send. */
  lemma PublicClientSendsSixth(c: NatFeature, v: NatFeature)
    requires c.natType.EasyNAT? && v.natType.EasyNAT? && c.publicNetwork
    ensures |Fresh(c, v)| == |B.Rows(0)| == 10 && B.Rows(0)[Pick(Fresh(c, v), 5)].client.role.Sender?
  {
    hide B.Rows, Scores, OnesAt, Pick;
    PublicClientReceivesIff(c, v, 5);
    Mode0Ones();
    PickOfOnes(Fresh(c, v), CLIENT_RECEIVES, 5);
    Mode0Roles(Pick(Fresh(c, v), 5));
  }

  /** The record of two easy, private NATs passes the documented bound of -10 at its 101st recommendation. */
  lemma FreshRecordPassesBound(c: NatFeature, v: NatFeature)
    requires c.natType.EasyNAT? && v.natType.EasyNAT? && !c.publicNetwork && !v.publicNetwork
    ensures Fresh(c, v) != []
    ensures !AtLeast(PickedTimes(Fresh(c, v), 101), -10) && AtLeast(PickedTimes(Fresh(c, v), 100), -10)
  {
    hide AtLeast, PickedTimes;
    Mode0Roles(0);
    DocumentedBoundFails(Fresh(c, v));
  }

  // ----- The same with success reports in between -----

  /** What can happen to one record: a recommendation or a reported success. */
  datatype Touch = Recommend | Succeed(mode: nat, index: nat)

  function Touched(s: seq<Entry>, ts: seq<Touch>): (t: seq<Entry>)
    requires s != []
    ensures t != []
    decreases |ts|
  {
    if ts == [] then s
    else
      var prev := Touched(s, ts[..|ts| - 1]);
      match ts[|ts| - 1]
      case Recommend => Picked(prev)
      case Succeed(mode, index) => ReportedFrame(prev, mode, index); Reported(prev, mode, index)
  }

  lemma {:induction false} TouchedFrame(s: seq<Entry>, ts: seq<Touch>)
    requires s != []
    ensures SameBehaviors(s, Touched(s, ts))
    decreases |ts|
  {
    if ts != [] {
      var prev := Touched(s, ts[..|ts| - 1]);
      TouchedFrame(s, ts[..|ts| - 1]);
      PickedFrame(prev);
      if ts[|ts| - 1].Succeed? { ReportedFrame(prev, ts[|ts| - 1].mode, ts[|ts| - 1].index); }
    }
  }

  /** How often entry i is recommended, and how often its success is reported. */
  function Picks(s: seq<Entry>, ts: seq<Touch>, i: nat): nat
    requires s != []
    decreases |ts|
  {
    if ts == [] then 0
    else
      var rest := ts[..|ts| - 1];
      Picks(s, rest, i) + if ts[|ts| - 1].Recommend? && FirstMax(Touched(s, rest)) == i then 1 else 0
  }

  function Successes(e: Entry, ts: seq<Touch>): nat
    decreases |ts|
  {
    if ts == [] then 0
    else Successes(e, ts[..|ts| - 1]) + if ts[|ts| - 1] == Succeed(e.mode, e.index) then 1 else 0
  }

  lemma ReportAt(s: seq<Entry>, mode: nat, index: nat, i: nat)
    requires Distinct(s) && i < |s|
    ensures |Reported(s, mode, index)| == |s|
    ensures Reported(s, mode, index)[i].score == if Matches(s[i], mode, index) then Raised(s[i].score) else s[i].score
  {
    if j :| 0 <= j < |s| && Matches(s[j], mode, index) {
      ReportedAt(s, j);
    } else {
      ReportedElsewhere(s, mode, index);
    }
  }

  /** The balance of an entry: a recommendation costs one point, a success brings two, as long
      as the successes cannot carry it past ten. */
  lemma {:induction false} ScoreBalance(s: seq<Entry>, ts: seq<Touch>, i: nat)
    requires s != [] && i < |s| && Distinct(s) && s[i].score + 2 * Successes(s[i], ts) <= 10
    ensures |Touched(s, ts)| == |s|
    ensures Touched(s, ts)[i].score == s[i].score - Picks(s, ts, i) + 2 * Successes(s[i], ts)
    decreases |ts|
  {
    TouchedFrame(s, ts);
    if ts != [] {
      var rest, last := ts[..|ts| - 1], ts[|ts| - 1];
      var prev := Touched(s, rest);
      ScoreBalance(s, rest, i);
      TouchedFrame(s, rest);
      if last.Succeed? {
        DistinctAlike(s, prev);
        ReportAt(prev, last.mode, last.index, i);
      }
    }
  }

  lemma DistinctAlike(s: seq<Entry>, t: seq<Entry>)
    requires Distinct(s) && SameBehaviors(s, t)
    ensures Distinct(t)
  {
    forall i, j | 0 <= i < j < |t| ensures !(t[i].mode == t[j].mode && t[i].index == t[j].index) {
      assert !(s[i].mode == s[j].mode && s[i].index == s[j].index);
    }
  }

  /** Entry i is recommended rather than entry j. */
  predicate Beats(s: seq<Entry>, i: nat, j: nat)
    requires i < |s| && j < |s|
  {
    s[i].score > s[j].score || (s[i].score == s[j].score && i < j)
  }

  /** After any recommendations and success reports, the next recommendation of two easy NATs
      makes the client the receiver exactly if some row in which it receives beats every row
      in which it sends. */
  lemma ClientReceivesNextIff(c: NatFeature, v: NatFeature, ts: seq<Touch>)
    requires c.natType.EasyNAT? && v.natType.EasyNAT?
    ensures Fresh(c, v) != []
    ensures var s := Touched(Fresh(c, v), ts);
            && |s| == |B.Rows(0)| == 10
            && (B.Rows(0)[FirstMax(s)].client.role.Receiver? <==>
                  exists i: nat :: i in CLIENT_RECEIVES && forall j: nat :: j in VISITOR_RECEIVES ==> Beats(s, i, j))
  {
    hide Touched, B.Rows;
    Mode0Roles(0);
    TouchedFrame(Fresh(c, v), ts);
    var s := Touched(Fresh(c, v), ts);
    var m := FirstMax(s);
    Mode0Roles(m);
    if m in CLIENT_RECEIVES {
      forall j: nat | j in VISITOR_RECEIVES ensures Beats(s, m, j) { FirstBeats(s, m, j); }
    } else {
      forall i: nat | i in CLIENT_RECEIVES ensures !Beats(s, i, m) { FirstBeats(s, m, i); }
    }
  }

  lemma FirstBeats(s: seq<Entry>, m: nat, j: nat)
    requires IsFirstMax(s, m) && j < |s| && j != m
    ensures Beats(s, m, j) && !Beats(s, j, m)
  {
  }

  lemma PickOfOnes(s: seq<Entry>, rows: seq<nat>, n: nat)
    requires |s| > 0 && OnesAt(s, rows)
    ensures Pick(s, n) == if n < |rows| then rows[n] else (n - |rows|) % |s|
  {
    hide OnesAt, FirstMax, Picked, AllScored, PickedTimes;
    if n < |rows| {
      AheadGoFirst(s, rows, n);
    } else {
      AheadGoFirst(s, rows, |rows|);
      PickedTimesAdds(s, |rows|, n - |rows|);
      RoundsForever(PickedTimes(s, |rows|), 0, n - |rows|);
    }
  }

  // ----- The call history -----

  datatype Record = Record(scores: seq<Entry>, lastUpdateTime: int)

  type Records = map<string, Record>

  datatype Call =
    | Get(key: string, c: NatFeature, v: NatFeature)
    | Report(key: string, mode: nat, index: nat)
    | Clean(reserve: int)

  function RecordOf(rs: Records, key: string, c: NatFeature, v: NatFeature): seq<Entry> {
    if key in rs then rs[key].scores else Fresh(c, v)
  }

  predicate RecordsOk(rs: Records) {
    forall k :: k in rs ==> ScoresOk(rs[k].scores)
  }

  lemma RecordOfOk(rs: Records, key: string, c: NatFeature, v: NatFeature)
    requires RecordsOk(rs)
    ensures ScoresOk(RecordOf(rs, key, c, v))
  {
    FreshIsOk(c, v);
  }

  predicate Expired(r: Record, now: int, reserve: int) {
    now - r.lastUpdateTime > reserve
  }

  /** The entry recommand picks; an empty record recommends the first row of mode 0. */
  function Choice(s: seq<Entry>): Entry {
    if s == [] then Entry(0, 0, 0) else s[FirstMax(s)]
  }

  function After(rs: Records, call: Call, now: int): Records {
    match call
    case Get(key, c, v) =>
      var s := RecordOf(rs, key, c, v);
      if s != [] then rs[key := Record(Picked(s), now)]
      else if key in rs then rs
      else rs[key := Record(s, now)]
    case Report(key, mode, index) =>
      if key in rs then rs[key := Record(Reported(rs[key].scores, mode, index), now)] else rs
    case Clean(reserve) =>
      map k | k in rs && !Expired(rs[k], now, reserve) :: rs[k]
  }

  lemma AfterIsOk(rs: Records, call: Call, now: int)
    requires RecordsOk(rs)
    ensures RecordsOk(After(rs, call, now))
  {
    hide ScoresOk, Fresh, Picked;
    match call {
      case Get(key, c, v) =>
        RecordOfOk(rs, key, c, v);
        PickOk(RecordOf(rs, key, c, v));
      case Report(key, mode, index) =>
        if key in rs { ReportOk(rs[key].scores, mode, index); }
      case Clean(_) =>
    }
  }

  lemma PickOk(s: seq<Entry>)
    requires ScoresOk(s)
    ensures s != [] && ScoresOk(Picked(s))
  {
    PickedFrame(s);
    SameBehaviorsOk(s, Picked(s));
  }

  lemma ReportOk(s: seq<Entry>, mode: nat, index: nat)
    requires ScoresOk(s)
    ensures ScoresOk(Reported(s, mode, index))
  {
    ReportedFrame(s, mode, index);
    SameBehaviorsOk(s, Reported(s, mode, index));
  }

  datatype Timed = Timed(call: Call, now: int)

  /** The records along a history of calls, starting with none. */
  ghost predicate History(states: seq<Records>, calls: seq<Timed>) {
    && |states| == |calls| + 1 && states[0] == map[]
    && forall i :: 0 <= i < |calls| ==> states[i + 1] == After(states[i], calls[i].call, calls[i].now)
  }

  lemma {:induction false} HistoryIsOk(states: seq<Records>, calls: seq<Timed>, i: nat)
    requires History(states, calls) && i < |states|
    ensures RecordsOk(states[i])
  {
    hide After, RecordsOk;
    if i > 0 {
      HistoryIsOk(states, calls, i - 1);
      AfterIsOk(states[i - 1], calls[i - 1].call, calls[i - 1].now);
    } else {
      NoRecordsOk();
    }
  }

  lemma NoRecordsOk()
    ensures RecordsOk(map[])
  {
  }

  /** Over every history of calls, a recommendation is a real behaviour of its mode, gives
      the peers its opposite parts, and puts a hard or regular peer where its mode wants it,
      even when the record was made for other NAT features. */
  lemma EveryRecommendationIsUsable(states: seq<Records>, calls: seq<Timed>, i: nat,
                                    key: string, c: NatFeature, v: NatFeature)
    requires History(states, calls) && i < |states|
    ensures var e := Choice(RecordOf(states[i], key, c, v));
            var p := B.Assigned(e.mode, e.index, c);
            && e.index < |B.Rows(e.mode)| && B.WellFormed(p) && B.Placed(e.mode, B.Rows(e.mode)[e.index], c, p)
  {
    hide B.Rows, B.Assigned, B.WellFormed, B.Placed, Fresh;
    HistoryIsOk(states, calls, i);
    RecordOfOk(states[i], key, c, v);
    var e := Choice(RecordOf(states[i], key, c, v));
    B.RolesAreAssigned(e.mode, e.index, c);
  }

  /** The call neither uses nor expires the record of `key`. */
  predicate LeavesAlone(rs: Records, t: Timed, key: string) {
    if t.call.Clean? then key in rs ==> !Expired(rs[key], t.now, t.call.reserve) else t.call.key != key
  }

  lemma {:induction false} RecordStays(states: seq<Records>, calls: seq<Timed>, i: nat, j: nat, key: string)
    requires History(states, calls) && i <= j < |states| && key in states[i]
    requires forall k :: i <= k < j ==> LeavesAlone(states[k], calls[k], key)
    ensures key in states[j] && states[j][key] == states[i][key]
    decreases j
  {
    hide Fresh, Picked;
    if i < j {
      RecordStays(states, calls, i, j - 1, key);
      assert LeavesAlone(states[j - 1], calls[j - 1], key);
    }
  }

  /** A behaviour that worked is recommended again: if the peers get a recommendation, then
      report its success, then ask again, the answer is the same one, whatever calls for
      other peers and cleanups lie in between. */
  lemma WorkingBehaviorIsKept(states: seq<Records>, calls: seq<Timed>, i: nat, j: nat, k: nat,
                              key: string, c: NatFeature, v: NatFeature, c': NatFeature,
                                                     v': NatFeature)
    requires History(states, calls) && i < j < k < |states|
    requires calls[i].call == Get(key, c, v)
    requires var e := Choice(RecordOf(states[i], key, c, v)); calls[j].call == Report(key, e.mode, e.index)
    requires forall l :: i < l < k && l != j ==> LeavesAlone(states[l], calls[l], key)
    ensures var e := Choice(RecordOf(states[i], key, c, v));
            var e' := Choice(RecordOf(states[k], key, c', v'));
            e'.mode == e.mode && e'.index == e.index
  {
    hide B.Rows, Fresh, Picked, LeavesAlone;
    HistoryIsOk(states, calls, i);
    RecordOfOk(states[i], key, c, v);
    var s := RecordOf(states[i], key, c, v);
    var e := Choice(s);
    RecordStays(states, calls, i + 1, j, key);
    assert states[j][key].scores == Picked(s);
    RecordStays(states, calls, j + 1, k, key);
    assert states[k][key].scores == Reported(Picked(s), e.mode, e.index);
    SuccessIsRepeated(s);
    PickedFrame(s);
    ReportedFrame(Picked(s), e.mode, e.index);
  }

  /** How many recommendations for the key calls i..j ask for. */
  function Gets(calls: seq<Timed>, key: string, i: nat, j: nat): nat
    requires i <= j <= |calls|
    decreases j
  {
    if i == j then 0
    else Gets(calls, key, i, j - 1) + if calls[j - 1].call.Get? && calls[j - 1].call.key == key then 1 else 0
  }

  /** Between i and j the key is asked for, by whatever features, or left alone. */
  ghost predicate OnlyGets(states: seq<Records>, calls: seq<Timed>, key: string, i: nat, j: nat)
    requires i <= j <= |calls| < |states|
  {
    forall k :: i <= k < j ==> (calls[k].call.Get? && calls[k].call.key == key) || LeavesAlone(states[k], calls[k], key)
  }

  lemma {:induction false} RecordOverHistory(states: seq<Records>, calls: seq<Timed>, i: nat, j: nat, key: string,
                                             c: NatFeature, v: NatFeature)
    requires History(states, calls) && i < j < |states| && key !in states[i] && calls[i].call == Get(key, c, v)
    requires OnlyGets(states, calls, key, i, j)
    ensures Fresh(c, v) != [] && key in states[j]
    ensures states[j][key].scores == PickedTimes(Fresh(c, v), Gets(calls, key, i, j))
    decreases j
  {
    hide Fresh, Picked, ScoresOk;
    FreshIsNonEmpty(c, v);
    if j == i + 1 {
      assert Gets(calls, key, i, i) == 0;
      OnePick(Fresh(c, v), 0);
    } else {
      assert OnlyGets(states, calls, key, i, j - 1);
      RecordOverHistory(states, calls, i, j - 1, key, c, v);
      assert states[j - 1 + 1] == After(states[j - 1], calls[j - 1].call, calls[j - 1].now);
      OnePick(Fresh(c, v), Gets(calls, key, i, j - 1));
    }
  }

  lemma FreshIsNonEmpty(c: NatFeature, v: NatFeature)
    ensures Fresh(c, v) != []
  {
    hide Fresh;
    FreshIsOk(c, v);
  }

  lemma OnePick(s: seq<Entry>, n: nat)
    requires s != []
    ensures PickedTimes(s, n) != [] && PickedTimes(s, n + 1) == Picked(PickedTimes(s, n)) && PickedTimes(s, 0) == s
  {
    hide Picked;
  }

  /** Over every history: the n-th recommendation for a new key is the n-th of the list made for
      the features of its first request, whatever is asked for other keys and whatever the
      later requests' features are. */
  lemma NthOverHistory(states: seq<Records>, calls: seq<Timed>, i: nat, j: nat, key: string,
                       c: NatFeature, v: NatFeature, c': NatFeature, v': NatFeature)
    requires History(states, calls) && i < j < |states| && key !in states[i] && calls[i].call == Get(key, c, v)
    requires OnlyGets(states, calls, key, i, j)
    ensures var e := Choice(RecordOf(states[j], key, c', v'));
            Fresh(c, v) != [] && (e.mode, e.index) == Nth(Fresh(c, v), Gets(calls, key, i, j))
  {
    hide Fresh, Picked, OnlyGets;
    RecordOverHistory(states, calls, i, j, key, c, v);
    hide History, PickedTimes;
  }

  // ----- What a clean-up keeps -----

  predicate Uses(call: Call, key: string) {
    !call.Clean? && call.key == key
  }

  /** A record carries the time of the last call that used it. */
  lemma {:induction false} LastUse(states: seq<Records>, calls: seq<Timed>, i: nat, key: string) returns (k: nat)
    requires History(states, calls) && i < |states| && key in states[i]
    ensures k < i && Uses(calls[k].call, key) && (forall m :: k < m < i ==> !Uses(calls[m].call, key))
    ensures states[i][key].lastUpdateTime == calls[k].now
  {
    hide Fresh, Picked, ScoresOk, Reported;
    assert i > 0;
    assert states[i - 1 + 1] == After(states[i - 1], calls[i - 1].call, calls[i - 1].now);
    if Uses(calls[i - 1].call, key) {
      k := i - 1;
      HistoryIsOk(states, calls, i - 1);
      if calls[i - 1].call.Get? { RecordOfOk(states[i - 1], key, calls[i - 1].call.c, calls[i - 1].call.v); }
      OkIsNonEmpty();
    } else {
      k := LastUse(states, calls, i - 1, key);
    }
  }

  lemma OkIsNonEmpty()
    ensures !ScoresOk([])
  {
  }

  /** A clean-up keeps a record exactly if the last call that used it is no older than the
      reserve duration, over every history. */
  lemma CleanKeepsIff(states: seq<Records>, calls: seq<Timed>, i: nat, key: string, reserve: int) returns (k: nat)
    requires History(states, calls) && i < |calls| && calls[i].call == Clean(reserve) && key in states[i]
    ensures k < i && Uses(calls[k].call, key) && (forall m :: k < m < i ==> !Uses(calls[m].call, key))
    ensures key in states[i + 1] <==> calls[i].now - calls[k].now <= reserve
    ensures key in states[i + 1] ==> states[i + 1][key] == states[i][key]
  {
    k := LastUse(states, calls, i, key);
    assert states[i + 1] == After(states[i], calls[i].call, calls[i].now);
  }
}

/** The scored behaviours of one pair of peers (pkg/nathole/analysis.go). */
module Recommender {
  datatype Entry = Entry(mode: nat, index: nat, score: int)

  // ----- The choice -----

  /** The position slices.MaxFunc picks: a maximal score, the first of them. */
  predicate IsFirstMax(s: seq<Entry>, i: nat) {
    && i < |s|
    && (forall k :: 0 <= k < |s| ==> s[k].score <= s[i].score)
    && (forall k :: 0 <= k < i ==> s[k].score < s[i].score)
  }

  function FirstMax(s: seq<Entry>): (i: nat)
    requires |s| > 0
    ensures IsFirstMax(s, i)
  {
    if |s| == 1 then 0
    else
      var m := FirstMax(s[..|s| - 1]);
      if s[|s| - 1].score > s[m].score then |s| - 1 else m
  }

  /** The scores after recommand: the chosen one loses a point. */
  function Picked(s: seq<Entry>): seq<Entry>
    requires |s| > 0
  {
    var i := FirstMax(s);
    s[i := s[i].(score := s[i].score - 1)]
  }

  /** The scores after `n` recommendations in a row. */
  function PickedTimes(s: seq<Entry>, n: nat): (t: seq<Entry>)
    requires |s| > 0
    ensures |t| == |s|
  {
    if n == 0 then s else Picked(PickedTimes(s, n - 1))
  }

  /** The entry the n-th recommendation (counted from 0) chooses. */
  function Pick(s: seq<Entry>, n: nat): nat
    requires |s| > 0
  {
    FirstMax(PickedTimes(s, n))
  }

  // ----- When an entry is first chosen -----

  /** How often entry i is chosen before entry j: once for every score from its own down
      to j's, the last one only if it comes first in the list. */
  function Lead(s: seq<Entry>, i: nat, j: nat): nat
    requires i < |s| && j < |s|
  {
    if i == j then 0
    else
      var d := s[i].score - s[j].score + if i < j then 1 else 0;
      if d > 0 then d else 0
  }

  /** The turns entry j has to wait: the leads of the first n entries. */
  function Waits(s: seq<Entry>, j: nat, n: nat): nat
    requires j < |s| && n <= |s|
  {
    if n == 0 then 0 else Waits(s, j, n - 1) + Lead(s, n - 1, j)
  }

  /** A choice other than j is one turn less to wait for j. */
  lemma {:induction false} WaitsShrink(s: seq<Entry>, j: nat, n: nat)
    requires |s| > 0 && j < |s| && n <= |s| && FirstMax(s) != j
    ensures Waits(s, j, n) == Waits(Picked(s), j, n) + if FirstMax(s) < n then 1 else 0
  {
    if n > 0 {
      WaitsShrink(s, j, n - 1);
      assert s[j].score <= s[FirstMax(s)].score;
    }
  }

  lemma {:induction false} LeadsBoundWaits(s: seq<Entry>, i: nat, j: nat, n: nat)
    requires i < n <= |s| && j < |s|
    ensures Lead(s, i, j) <= Waits(s, j, n)
  {
    if i < n - 1 { LeadsBoundWaits(s, i, j, n - 1); }
  }

  lemma {:induction false} NoWait(s: seq<Entry>, j: nat, n: nat)
    requires j < |s| && n <= |s|
    requires IsFirstMax(s, j)
    ensures Waits(s, j, n) == 0
  {
    if n > 0 { NoWait(s, j, n - 1); }
  }

  /** An entry is chosen now exactly if it has nothing to wait for. */
  lemma ChosenIffNoWait(s: seq<Entry>, j: nat)
    requires |s| > 0 && j < |s|
    ensures FirstMax(s) == j <==> Waits(s, j, |s|) == 0
  {
    if FirstMax(s) == j {
      NoWait(s, j, |s|);
    } else {
      assert s[j].score <= s[FirstMax(s)].score;
      LeadsBoundWaits(s, FirstMax(s), j, |s|);
    }
  }

  /** No behaviour starves: with no success reported, entry j is chosen for the first time
      after exactly `Waits` other recommendations. */
  lemma {:induction false} FirstPickIsExact(s: seq<Entry>, j: nat, n: nat)
    requires |s| > 0 && j < |s| && n <= Waits(s, j, |s|)
    ensures Waits(PickedTimes(s, n), j, |s|) == Waits(s, j, |s|) - n
    ensures Pick(s, n) == j <==> n == Waits(s, j, |s|)
  {
    if n > 0 {
      FirstPickIsExact(s, j, n - 1);
      WaitsShrink(PickedTimes(s, n - 1), j, |s|);
    }
    ChosenIffNoWait(PickedTimes(s, n), j);
  }

  // ----- Equal scores go round -----

  predicate AllScored(s: seq<Entry>, c: int) {
    forall i :: 0 <= i < |s| ==> s[i].score == c
  }

  /** From equal scores the behaviours are tried in list order, and after one round the
      scores are equal again. */
  lemma {:induction false} RoundRobin(s: seq<Entry>, c: int, n: nat)
    requires |s| > 0 && AllScored(s, c) && n <= |s|
    ensures forall i :: 0 <= i < |s| ==> PickedTimes(s, n)[i].score == if i < n then c - 1 else c
    ensures n < |s| ==> Pick(s, n) == n
    ensures n == |s| ==> AllScored(PickedTimes(s, n), c - 1)
  {
    if n > 0 { RoundRobin(s, c, n - 1); }
    var t := PickedTimes(s, n);
    if n < |s| { FirstMaxIs(t, n); }
  }

  lemma FirstMaxIs(s: seq<Entry>, i: nat)
    requires IsFirstMax(s, i)
    ensures FirstMax(s) == i
  {
    var m := FirstMax(s);
    assert s[m].score <= s[i].score <= s[m].score;
  }

  lemma {:induction false} PickedTimesAdds(s: seq<Entry>, m: nat, n: nat)
    requires |s| > 0
    ensures PickedTimes(s, m + n) == PickedTimes(PickedTimes(s, m), n)
  {
    hide Picked, FirstMax;
    if n > 0 { PickedTimesAdds(s, m, n - 1); }
  }

  lemma ModStep(n: nat, k: nat)
    requires 0 < k <= n
    ensures n % k == (n - k) % k
  {
    var m := n - k;
    assert m == m / k * k + m % k;
    assert n == (m / k + 1) * k + m % k;
    ModIs(n, k, m / k + 1, m % k);
  }

  lemma NextMultiple(x: int, k: int)
    requires k >= 0
    ensures x >= 1 ==> x * k >= k
    ensures x <= -1 ==> x * k <= -k
  {
    assert x * k - k == (x - 1) * k;
    assert x * k + k == (x + 1) * k;
  }

  lemma ModIs(n: nat, k: nat, q: nat, r: nat)
    requires r < k && n == q * k + r
    ensures n % k == r
  {
    var d := n / k;
    assert n == d * k + n % k;
    assert (d - q) * k == r - n % k;
    NextMultiple(d - q, k);
  }

  /** From equal scores the n-th recommendation is entry n modulo the number of entries. */
  lemma {:induction false} RoundsForever(s: seq<Entry>, c: int, n: nat)
    requires |s| > 0 && AllScored(s, c)
    ensures Pick(s, n) == n % |s|
    decreases n
  {
    hide PickedTimes, FirstMax, AllScored;
    if n < |s| {
      RoundRobin(s, c, n);
      ModIs(n, |s|, 0, n);
    } else {
      RoundRobin(s, c, |s|);
      PickedTimesAdds(s, |s|, n - |s|);
      RoundsForever(PickedTimes(s, |s|), c - 1, n - |s|);
      ModStep(n, |s|);
    }
  }

  /** `rows` lists in order the entries with score 1; the others have 0. */
  predicate OnesAt(s: seq<Entry>, rows: seq<nat>) {
    && (forall k :: 0 <= k < |rows| ==> rows[k] < |s|)
    && (forall k, l :: 0 <= k < l < |rows| ==> rows[k] < rows[l])
    && (forall i :: 0 <= i < |s| ==> s[i].score == if i in rows then 1 else 0)
  }

  lemma OnesHead(s: seq<Entry>, rows: seq<nat>)
    requires |s| > 0 && OnesAt(s, rows) && rows != []
    ensures FirstMax(s) == rows[0]
  {
    FirstMaxIs(s, rows[0]);
  }

  lemma HeadIsSmallest(rows: seq<nat>, i: nat)
    requires rows != [] && forall k, l :: 0 <= k < l < |rows| ==> rows[k] < rows[l]
    ensures i in rows[1..] <==> i in rows && i != rows[0]
  {
    var rest := rows[1..];
    assert rows == [rows[0]] + rest;
    assert forall k :: 0 <= k < |rest| ==> rest[k] == rows[k + 1] && rows[0] < rows[k + 1];
  }

  lemma OnesStep(s: seq<Entry>, rows: seq<nat>)
    requires |s| > 0 && OnesAt(s, rows) && rows != []
    ensures OnesAt(Picked(s), rows[1..])
  {
    OnesHead(s, rows);
    var t, rest := Picked(s), rows[1..];
    assert forall k :: 0 <= k < |rest| ==> rest[k] == rows[k + 1];
    hide FirstMax;
    forall i | 0 <= i < |t| ensures t[i].score == if i in rest then 1 else 0 {
      HeadIsSmallest(rows, i);
    }
  }

  /** The entries one point ahead are chosen first, in list order; then all are equal. */
  lemma {:induction false} AheadGoFirst(s: seq<Entry>, rows: seq<nat>, n: nat)
    requires |s| > 0 && OnesAt(s, rows) && n <= |rows|
    ensures OnesAt(PickedTimes(s, n), rows[n..])
    ensures n < |rows| ==> Pick(s, n) == rows[n]
    ensures n == |rows| ==> AllScored(PickedTimes(s, n), 0)
  {
    hide OnesAt, Picked, FirstMax;
    if n == 0 {
      assert rows[0..] == rows;
    } else {
      AheadGoFirst(s, rows, n - 1);
      OnesStep(PickedTimes(s, n - 1), rows[n - 1..]);
      assert rows[n - 1..][1..] == rows[n..];
    }
    if n < |rows| {
      OnesHead(PickedTimes(s, n), rows[n..]);
    } else {
      NoOnes(PickedTimes(s, n));
      assert rows[n..] == [];
    }
  }

  lemma NoOnes(s: seq<Entry>)
    ensures OnesAt(s, []) ==> AllScored(s, 0)
  {
  }

  // ----- A reported success -----

  /** The scores after reportSuccess: two points more, ten at most, for the first match. */
  function Reported(s: seq<Entry>, mode: nat, index: nat): seq<Entry> {
    if s == [] then []
    else if Matches(s[0], mode, index) then [s[0].(score := Raised(s[0].score))] + s[1..]
    else [s[0]] + Reported(s[1..], mode, index)
  }

  function Raised(score: int): int {
    if score + 2 <= 10 then score + 2 else 10
  }

  predicate Distinct(s: seq<Entry>) {
    forall i, j :: 0 <= i < j < |s| ==> !(s[i].mode == s[j].mode && s[i].index == s[j].index)
  }

  predicate Matches(e: Entry, mode: nat, index: nat) {
    e.mode == mode && e.index == index
  }

  lemma {:induction false} ReportedFirst(s: seq<Entry>, i: nat, mode: nat, index: nat)
    requires i < |s| && Matches(s[i], mode, index)
    requires forall k :: 0 <= k < i ==> !Matches(s[k], mode, index)
    ensures Reported(s, mode, index) == s[i := s[i].(score := Raised(s[i].score))]
  {
    if i > 0 {
      var rest := s[1..];
      ReportedFirst(rest, i - 1, mode, index);
      assert s[i := s[i].(score := Raised(s[i].score))] == [s[0]] + rest[i - 1 := s[i].(score := Raised(s[i].score))];
    }
  }

  /** With distinct behaviours a report raises the one entry it names. */
  lemma ReportedAt(s: seq<Entry>, i: nat)
    requires i < |s| && Distinct(s)
    ensures Reported(s, s[i].mode, s[i].index) == s[i := s[i].(score := Raised(s[i].score))]
  {
    ReportedFirst(s, i, s[i].mode, s[i].index);
  }

  lemma {:induction false} ReportedElsewhere(s: seq<Entry>, mode: nat, index: nat)
    requires forall i :: 0 <= i < |s| ==> !Matches(s[i], mode, index)
    ensures Reported(s, mode, index) == s
  {
    if s != [] {
      ReportedElsewhere(s[1..], mode, index);
    }
  }

  /** What works is tried again: after a success of the recommended behaviour the next
      recommendation is the same one. */
  lemma SuccessIsRepeated(s: seq<Entry>)
    requires |s| > 0 && Distinct(s) && ScoresCapped(s)
    ensures var e := s[FirstMax(s)];
            var t := Reported(Picked(s), e.mode, e.index);
            |t| == |s| && FirstMax(t) == FirstMax(s)
  {
    var i := FirstMax(s);
    var t := Picked(s);
    assert Distinct(t);
    ReportedAt(t, i);
    var u := Reported(t, s[i].mode, s[i].index);
    assert u[i].score == Raised(s[i].score - 1) >= s[i].score;
    assert forall k :: 0 <= k < |s| && k != i ==> u[k] == s[k];
    FirstMaxIs(u, i);
  }

  // ----- The range of the scores -----

  predicate ScoresCapped(s: seq<Entry>) {
    forall i :: 0 <= i < |s| ==> s[i].score <= 10
  }

  predicate AtLeast(s: seq<Entry>, low: int) {
    forall i :: 0 <= i < |s| ==> low <= s[i].score
  }

  /** Same behaviours in the same order; only scores differ. */
  predicate SameBehaviors(s: seq<Entry>, t: seq<Entry>) {
    |s| == |t| && forall i :: 0 <= i < |s| ==> s[i].mode == t[i].mode && s[i].index == t[i].index
  }

  lemma PickedFrame(s: seq<Entry>)
    requires |s| > 0
    ensures SameBehaviors(s, Picked(s))
    ensures ScoresCapped(s) ==> ScoresCapped(Picked(s))
  {
    var i := FirstMax(s);
  }

  lemma {:induction false} ReportedFrame(s: seq<Entry>, mode: nat, index: nat)
    ensures SameBehaviors(s, Reported(s, mode, index))
    ensures ScoresCapped(s) ==> ScoresCapped(Reported(s, mode, index))
  {
    if s != [] && !Matches(s[0], mode, index) {
      var rest := s[1..];
      ReportedFrame(rest, mode, index);
      var t := Reported(rest, mode, index);
      assert Reported(s, mode, index) == [s[0]] + t;
      forall i | 0 < i < |s| ensures ([s[0]] + t)[i] == t[i - 1] && s[i] == rest[i - 1] { }
    }
  }

  function Total(s: seq<Entry>): int {
    if s == [] then 0 else Total(s[..|s| - 1]) + s[|s| - 1].score
  }

  lemma {:induction false} TotalUpdated(s: seq<Entry>, i: nat, e: Entry)
    requires i < |s|
    ensures Total(s[i := e]) == Total(s) - s[i].score + e.score
  {
    if i < |s| - 1 {
      TotalUpdated(s[..|s| - 1], i, e);
      assert s[i := e][..|s| - 1] == s[..|s| - 1][i := e];
    } else {
      assert s[i := e][..|s| - 1] == s[..|s| - 1];
    }
  }

  lemma {:induction false} TotalOfEqual(s: seq<Entry>, c: int)
    requires AllScored(s, c)
    ensures Total(s) == c * |s|
  {
    if s != [] { TotalOfEqual(s[..|s| - 1], c); }
  }

  lemma {:induction false} TotalAtLeast(s: seq<Entry>, low: int)
    requires AtLeast(s, low)
    ensures Total(s) >= low * |s|
  {
    if s != [] { TotalAtLeast(s[..|s| - 1], low); }
  }

  /** One recommendation keeps a lower bound exactly if some score is above it. */
  lemma PickKeepsBoundIff(s: seq<Entry>, low: int)
    requires |s| > 0 && AtLeast(s, low)
    ensures AtLeast(Picked(s), low) <==> exists i :: 0 <= i < |s| && s[i].score > low
  {
    var m := FirstMax(s);
    if i :| 0 <= i < |s| && s[i].score > low {
      assert s[m].score >= s[i].score;
    } else {
      assert Picked(s)[m].score == s[m].score - 1;
    }
  }

  /** The documented lower bound of -10 is not kept: with no success reported it holds
      after n recommendations exactly if n is at most the points above the bound. */
  lemma {:induction false} LowerBoundHoldsIff(s: seq<Entry>, low: int, n: nat)
    requires |s| > 0 && AtLeast(s, low)
    ensures Total(PickedTimes(s, n)) == Total(s) - n
    ensures AtLeast(PickedTimes(s, n), low) <==> n <= Total(s) - low * |s|
  {
    var t := PickedTimes(s, n);
    if n == 0 {
      TotalAtLeast(s, low);
    } else {
      LowerBoundHoldsIff(s, low, n - 1);
      var u := PickedTimes(s, n - 1);
      TotalUpdated(u, FirstMax(u), t[FirstMax(u)]);
      if AtLeast(u, low) {
        PickKeepsBoundIff(u, low);
        if !AtLeast(t, low) {
          assert AllScored(u, low);
          TotalOfEqual(u, low);
        } else {
          TotalAtLeast(t, low);
        }
      } else if AtLeast(t, low) {
        TotalAtLeast(t, low);
      }
    }
  }

  /** One record of ten fresh behaviours passes -10 at its 101st recommendation. */
  lemma DocumentedBoundFails(s: seq<Entry>)
    requires |s| == 10 && AllScored(s, 0)
    ensures !AtLeast(PickedTimes(s, 101), -10) && AtLeast(PickedTimes(s, 100), -10)
  {
    TotalOfEqual(s, 0);
    LowerBoundHoldsIff(s, -10, 100);
    LowerBoundHoldsIff(s, -10, 101);
  }
}

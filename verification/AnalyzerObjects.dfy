/** The analyzer as the source runs it: records updated in place behind a map
    (pkg/nathole/analysis.go). The clock is a parameter. */
module AnalyzerObjects {
  import opened NatFeatures
  import opened Recommender
  import A = Analyzer
  import B = Behaviors

  /** slices.MaxFunc by score */
  method MaxFunc(scores: seq<Entry>) returns (m: nat)
    requires scores != []
    ensures IsFirstMax(scores, m)
  {
    m := 0;
    var i := 1;
    while i < |scores|
      invariant m < i <= |scores|
      invariant IsFirstMax(scores[..i], m)
    {
      if scores[i].score > scores[m].score { m := i; }
      i := i + 1;
    }
    assert scores[..i] == scores;
  }

  lemma RemovedSize<K, V>(m: map<K, V>, k: K)
    requires k in m
    ensures |m - {k}| == |m| - 1
  {
    var rest := m - {k};
    assert rest.Keys == m.Keys - {k};
    assert |rest| == |rest.Keys| && |m| == |m.Keys|;
  }

  lemma CleanedView(rs: A.Records, rs': A.Records, now: int, reserve: int)
    requires forall k :: k in rs' <==> k in rs && !A.Expired(rs[k], now, reserve)
    requires forall k :: k in rs' ==> rs'[k] == rs[k]
    ensures rs' == A.After(rs, A.Clean(reserve), now)
  {
  }

  class MakeHoleRecords {
    var scores: seq<Entry>
    var lastUpdateTime: int

    constructor (c: NatFeature, v: NatFeature, now: int)
      ensures scores == A.Fresh(c, v) && lastUpdateTime == now
    {
      var initial := A.NewScores(c, v);
      scores := initial;
      lastUpdateTime := now;
    }

    ghost function View(): A.Record
      reads this
    {
      A.Record(scores, lastUpdateTime)
    }

    method ReportSuccess(mode: nat, index: nat, now: int)
      modifies this
      ensures View() == A.Record(Reported(old(scores), mode, index), now)
    {
      lastUpdateTime := now;
      var i := 0;
      while i < |scores|
        invariant 0 <= i <= |scores| && scores == old(scores) && lastUpdateTime == now
        invariant forall k :: 0 <= k < i ==> !Matches(scores[k], mode, index)
      {
        var score := scores[i];
        if score.mode == mode && score.index == index {
          ReportedFirst(scores, i, mode, index);
          scores := scores[i := score.(score := Min(score.score + 2, 10))];
          return;
        }
        i := i + 1;
      }
      ReportedElsewhere(scores, mode, index);
    }

    method Recommand(now: int) returns (mode: nat, index: nat)
      modifies this
      ensures mode == A.Choice(old(scores)).mode && index == A.Choice(old(scores)).index
      ensures View() == if old(scores) == [] then old(View()) else A.Record(Picked(old(scores)), now)
    {
      if |scores| == 0 { return 0, 0; }
      var m := MaxFunc(scores);
      FirstMaxIs(scores, m);
      mode, index := scores[m].mode, scores[m].index;
      scores := scores[m := scores[m].(score := scores[m].score - 1)];
      lastUpdateTime := now;
    }
  }

  /** The behaviours of a mode and index, swapped where the mode wants it. */
  method Assign(mode: nat, index: nat, c: NatFeature) returns (cBehavior: B.Behavior, vBehavior: B.Behavior)
    ensures B.Pair(cBehavior, vBehavior) == B.Assigned(mode, index, c)
  {
    hide B.Row;
    var row := B.Row(mode, index);
    cBehavior, vBehavior := row.client, row.visitor;
    match mode {
      case 1 =>
        if c.natType == EasyNAT { cBehavior, vBehavior := vBehavior, cBehavior; }
      case 2 =>
        if c.natType == HardNAT { cBehavior, vBehavior := vBehavior, cBehavior; }
      case 4 =>
        if !c.regularPortsChange { cBehavior, vBehavior := vBehavior, cBehavior; }
      case _ =>
    }
  }

  class Analyzer {
    var records: map<string, MakeHoleRecords>
    const dataReserveDuration: int

    constructor (dataReserveDuration: int)
      ensures Valid() && View() == map[] && this.dataReserveDuration == dataReserveDuration
    {
      records := map[];
      this.dataReserveDuration := dataReserveDuration;
    }

    /** No two keys share a record. */
    ghost predicate Valid()
      reads this
    {
      forall k, l :: k in records && l in records && k != l ==> records[k] != records[l]
    }

    ghost function View(): A.Records
      reads this, records.Values
    {
      map k | k in records :: records[k].View()
    }

    method GetRecommandBehaviors(key: string, c: NatFeature, v: NatFeature, now: int)
      returns (mode: nat, index: nat, cBehavior: B.Behavior, vBehavior: B.Behavior)
      requires Valid()
      modifies this, records.Values
      ensures Valid() && fresh(records.Values - old(records.Values))
      ensures View() == A.After(old(View()), A.Get(key, c, v), now)
      ensures var e := A.Choice(A.RecordOf(old(View()), key, c, v));
              mode == e.mode && index == e.index && B.Pair(cBehavior, vBehavior) == B.Assigned(mode, index, c)
    {
      hide A.Fresh, Picked, B.Assigned, A.Choice, Valid, View;
      var record := RecordFor(key, c, v, now);
      mode, index := RecommandFor(key, now);
      cBehavior, vBehavior := Assign(mode, index, c);
    }

    method RecommandFor(key: string, now: int) returns (mode: nat, index: nat)
      requires Valid() && key in records
      modifies records[key]
      ensures Valid()
      ensures var s := old(records[key].scores);
              && mode == A.Choice(s).mode && index == A.Choice(s).index
              && View() == if s == [] then old(View()) else old(View())[key := A.Record(Picked(s), now)]
    {
      hide Picked, A.Choice;
      mode, index := records[key].Recommand(now);
    }

    /** The record of the key, made now if there is none. */
    method RecordFor(key: string, c: NatFeature, v: NatFeature, now: int) returns (record: MakeHoleRecords)
      requires Valid()
      modifies this
      ensures Valid() && fresh(records.Values - old(records.Values))
      ensures key in records && records[key] == record && record.scores == A.RecordOf(old(View()), key, c, v)
      ensures View() == old(View())[key := record.View()]
      ensures key in old(View()) ==> View() == old(View())
      ensures key !in old(View()) ==> record.lastUpdateTime == now
    {
      hide A.Fresh;
      if key !in records {
        record := new MakeHoleRecords(c, v, now);
        records := records[key := record];
      } else {
        record := records[key];
      }
    }

    method ReportSuccess(key: string, mode: nat, index: nat, now: int)
      requires Valid()
      modifies records.Values
      ensures Valid() && View() == A.After(old(View()), A.Report(key, mode, index), now)
    {
      hide A.Fresh, Picked, Reported;
      if key !in records { return; }
      records[key].ReportSuccess(mode, index, now);
      assert View() == old(View())[key := records[key].View()];
    }

    method Clean(now: int) returns (count: nat, total: nat)
      requires Valid()
      modifies this
      ensures Valid() && View() == A.After(old(View()), A.Clean(dataReserveDuration), now)
      ensures total == |old(records)| && count == |old(records)| - |records|
    {
      hide A.After;
      ghost var start, view := records, View();
      total, count := |records|, 0;
      var keys := records.Keys;
      while keys != {}
        invariant keys <= records.Keys <= start.Keys
        invariant forall k :: k in records ==> records[k] == start[k]
        invariant forall k :: k in start ==>
                    (k in records <==> k in keys || !A.Expired(view[k], now, dataReserveDuration))
        invariant count == |start| - |records|
        decreases |keys|
      {
        var key :| key in keys;
        keys := keys - {key};
        if now - records[key].lastUpdateTime > dataReserveDuration {
          RemovedSize(records, key);
          records := records - {key};
          count := count + 1;
        }
      }
      CleanedView(view, View(), now, dataReserveDuration);
    }
  }
}

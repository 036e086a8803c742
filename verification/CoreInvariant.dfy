/** What every reachable state keeps about controls, entries, the registry and the
    handoff between generations, independently of where the threads are. */
module CoreInvariant {
  import opened Options
  import opened Lifecycle
  import opened Protocol
  import Registry
  import Names

  /** The barrier belongs to an earlier generation of the run that has a worker,
      and whoever waited for it found that worker finished. */
  ghost predicate BarrierOk(k: Core, c: Ref)
    requires c in k.ctls
  {
    k.ctls[c].barrier.Some? ==>
      var b := k.ctls[c].barrier.value;
      && b in k.ctls && k.ctls[b].run == k.ctls[c].run && k.ctls[b].id < k.ctls[c].id && k.ctls[b].started
      && (k.ctls[c].waited ==> k.ctls[b].state.Closed?)
  }

  ghost predicate CtlOk(k: Core, c: Ref)
    requires c in k.ctls
  {
    && Ok(k.ctls[c]) && k.ctls[c].id <= k.lastId && BarrierOk(k, c)
    && c in k.names.act && (k.ctls[c].cleaned ==> k.names.act[c].Swept?)
    && (!k.ctls[c].started ==> k.names.act[c].Idle?)
  }

  ghost predicate CtlsOk(k: Core) {
    forall c :: c in k.ctls ==> CtlOk(k, c)
  }

  ghost predicate IdsDistinct(k: Core) {
    forall c, d :: c in k.ctls && d in k.ctls && k.ctls[c].id == k.ctls[d].id > 0 ==> c == d
  }

  /** An entry's control is pending, or has a worker that has not finished. */
  ghost predicate EntryOk(k: Core, r: string)
    requires r in k.entries
  {
    var e := k.entries[r];
    && e.ctl in k.ctls && k.ctls[e.ctl].run == r && k.ctls[e.ctl].id == e.id && e.gate <= e.id
    && (k.ctls[e.ctl].state.Pending? || k.ctls[e.ctl].state.Running? || k.ctls[e.ctl].state.Closing?)
  }

  ghost predicate EntriesOk(k: Core) {
    forall r :: r in k.entries ==> EntryOk(k, r)
  }

  /** No ghost clients: whatever the registry shows online is a run the manager
      holds, under the generation its entry remembers. */
  ghost predicate RegistryOk(k: Core) {
    && Registry.Inv(k.reg)
    && forall r :: Registry.OnlineAs(k.reg, r).Some? ==>
         r in k.entries && k.entries[r].online && Registry.OnlineAs(k.reg, r).value == k.entries[r].onlineId
  }

  /** The control has a worker that has not yet drained its pool and closed its proxies. */
  predicate Uncleaned(k: Core, d: Ref) {
    d in k.ctls && k.ctls[d].started && !k.ctls[d].cleaned
  }

  /** An uncleaned control is the current one, or the current one is pending behind
      its barrier, or the manager is closed and will admit no successor. */
  ghost predicate Covered(k: Core, d: Ref)
    requires d in k.ctls
  {
    var r := k.ctls[d].run;
    if r in k.entries then
      k.entries[r].ctl == d || Awaits(k, k.entries[r].ctl, d)
    else k.closed
  }

  predicate Awaits(k: Core, c: Ref, d: Ref) {
    c in k.ctls && k.ctls[c].state.Pending? && !k.ctls[c].waited && k.ctls[c].barrier == Some(d)
  }

  ghost predicate HandoffOk(k: Core) {
    && (forall d :: Uncleaned(k, d) ==> Covered(k, d))
    && (forall d, d' :: Uncleaned(k, d) && Uncleaned(k, d') && k.ctls[d].run == k.ctls[d'].run ==> d == d')
  }

  ghost predicate CoreOk(k: Core) {
    CtlsOk(k) && IdsDistinct(k) && EntriesOk(k) && RegistryOk(k) && HandoffOk(k) && Names.Inv(k.names)
  }

  // ----- Replacing one control's record -----

  /** A change of control `c` alone that no other part of the state can object to. */
  ghost predicate SafeUpdate(k: Core, c: Ref, y: Ctl) {
    && c in k.ctls
    && var x := k.ctls[c];
    && Ok(y) && Forward(x, y) && y.id == x.id && y.barrier == x.barrier
    && (y.waited && !x.waited ==> BarrierPassed(k, c))
    && (y.cleaned ==> c in k.names.act && k.names.act[c].Swept?)
    && (Current(k, c) ==> !y.state.Closed? && (!y.waited ==> y.state == x.state))
    && (y.started && !x.started ==> Current(k, c) && forall d :: Uncleaned(k, d) ==> k.ctls[d].run != x.run)
  }

  lemma DoneMeansClosed(x: Ctl)
    requires Ok(x) && x.doneCloses > 0
    ensures x.state.Closed? && (x.started ==> x.cleaned)
  {
    hide PoolOk;
  }

  /** What other controls see of an update. */
  ghost predicate Seemly(x: Ctl, y: Ctl) {
    y.run == x.run && y.id == x.id && y.barrier == x.barrier && (x.started ==> y.started)
    && (x.state.Closed? ==> y.state.Closed?) && (x.cleaned ==> y.cleaned)
  }

  lemma SafeIsSeemly(k: Core, c: Ref, y: Ctl)
    requires SafeUpdate(k, c, y)
    ensures Seemly(k.ctls[c], y)
  {
    hide Ok, BarrierPassed, Uncleaned, Current;
  }

  lemma UpdateKeepsBarrier(k: Core, c: Ref, y: Ctl, d: Ref)
    requires c in k.ctls && Seemly(k.ctls[c], y) && d in k.ctls && BarrierOk(k, d)
    requires y.waited && !k.ctls[c].waited && y.barrier.Some? ==>
               y.barrier.value in k.ctls && k.ctls[y.barrier.value].state.Closed?
    ensures BarrierOk(SetCtl(k, c, y), d)
  {
  }

  lemma WaitedFindsClosed(k: Core, c: Ref)
    requires CtlsOk(k) && BarrierPassed(k, c)
    ensures k.ctls[c].barrier.Some? ==>
              var b := k.ctls[c].barrier.value; b in k.ctls && k.ctls[b].state.Closed? && k.ctls[b].cleaned
  {
    hide Ok;
    assert CtlOk(k, c);
    if k.ctls[c].barrier.Some? {
      assert CtlOk(k, k.ctls[c].barrier.value);
      DoneMeansClosed(k.ctls[k.ctls[c].barrier.value]);
    }
  }

  lemma UpdateKeepsCtl(k: Core, c: Ref, y: Ctl, d: Ref)
    requires SafeUpdate(k, c, y) && d in k.ctls && CtlOk(k, d)
    requires BarrierOk(SetCtl(k, c, y), d) && Seemly(k.ctls[c], y)
    ensures CtlOk(SetCtl(k, c, y), d)
  {
    hide Ok, BarrierOk, Forward, Uncleaned, Current;
  }

  lemma UpdateKeepsCtls(k: Core, c: Ref, y: Ctl)
    requires SafeUpdate(k, c, y) && CtlsOk(k)
    ensures CtlsOk(SetCtl(k, c, y))
  {
    SafeIsSeemly(k, c, y);
    if y.waited && !k.ctls[c].waited { WaitedFindsClosed(k, c); }
    forall d | d in k.ctls ensures CtlOk(SetCtl(k, c, y), d) {
      hide Ok, Forward, Seemly, Uncleaned;
      assert CtlOk(k, d);
      UpdateKeepsBarrier(k, c, y, d);
      UpdateKeepsCtl(k, c, y, d);
    }
    hide CtlOk, SafeUpdate;
  }

  lemma UpdateKeepsEntries(k: Core, c: Ref, y: Ctl)
    requires SafeUpdate(k, c, y) && EntriesOk(k) && IdsDistinct(k)
    ensures EntriesOk(SetCtl(k, c, y)) && IdsDistinct(SetCtl(k, c, y))
  {
    hide Ok, Uncleaned, BarrierPassed;
    var k' := SetCtl(k, c, y);
    forall r | r in k'.entries ensures EntryOk(k', r) {
      assert EntryOk(k, r);
    }
  }

  /** The cover of an uncleaned control survives an update of any control. */
  lemma UpdateKeepsCover(k: Core, c: Ref, y: Ctl, d: Ref)
    requires c in k.ctls && d in k.ctls && Covered(k, d) && y.run == k.ctls[c].run && y.barrier == k.ctls[c].barrier
    requires Current(k, c) && !y.waited ==> y.state == k.ctls[c].state
    requires y.waited && !k.ctls[c].waited ==> k.ctls[c].barrier != Some(d)
    requires forall r :: r in k.entries ==> k.entries[r].ctl in k.ctls && k.ctls[k.entries[r].ctl].run == r
    ensures Covered(SetCtl(k, c, y), d)
  {
  }

  lemma UpdateKeepsHandoff(k: Core, c: Ref, y: Ctl)
    requires SafeUpdate(k, c, y) && CtlsOk(k) && HandoffOk(k) && EntriesOk(k)
    ensures HandoffOk(SetCtl(k, c, y))
  {
    hide Ok, CtlsOk, BarrierPassed, Forward;
    var k' := SetCtl(k, c, y);
    SafeIsSeemly(k, c, y);
    if y.waited && !k.ctls[c].waited { WaitedFindsClosed(k, c); }
    assert forall r :: r in k.entries ==> EntryOk(k, r);
    forall d | Uncleaned(k', d) ensures Covered(k', d) {
      if Uncleaned(k, d) {
        UpdateKeepsCover(k, c, y, d);
      }
    }
    hide Covered;
  }

  lemma UpdateOk(k: Core, c: Ref, y: Ctl)
    requires CoreOk(k) && SafeUpdate(k, c, y)
    ensures CoreOk(SetCtl(k, c, y))
  {
    hide CtlsOk, IdsDistinct, EntriesOk, HandoffOk, SafeUpdate, Names.Inv;
    UpdateKeepsCtls(k, c, y);
    UpdateKeepsEntries(k, c, y);
    UpdateKeepsHandoff(k, c, y);
  }
}

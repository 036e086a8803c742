/** The sections of Add, Activate and Remove under cm.mu keep the core invariant. */
module CoreSteps {
  import opened Options
  import opened Lifecycle
  import opened Protocol
  import opened CoreInvariant
  import Registry
  import Names

  // ----- Add -----

  lemma AdmitOk(x: Ctl, id: nat, b: Option<Ref>)
    requires Ok(x) && x.state.Created? && id > 0
    ensures Ok(Admit(x, id).(barrier := b)) && !x.started && x.barrier.None? && !x.waited && x.id == 0
  {
  }

  /** Nothing else refers to a control that was never admitted. */
  lemma AdmissionKeepsBarrier(k: Core, k': Core, c: Ref, d: Ref)
    requires c in k.ctls && d in k.ctls && d != c && BarrierOk(k, d) && !k.ctls[c].started
    requires d in k'.ctls && k'.ctls[d].barrier == k.ctls[d].barrier && k'.ctls[d].waited == k.ctls[d].waited
    requires k'.ctls[d].run == k.ctls[d].run && k'.ctls[d].id == k.ctls[d].id
    requires forall e :: e in k.ctls && e != c ==> e in k'.ctls && Seemly(k.ctls[e], k'.ctls[e])
    ensures BarrierOk(k', d)
  {
  }

  lemma FirstAddCtls(k: Core, c: Ref)
    requires CtlsOk(k) && c in k.ctls && k.ctls[c].state.Created?
    ensures CtlsOk(FirstAdd(k, c))
  {
    hide Ok;
    var k' := FirstAdd(k, c);
    assert CtlOk(k, c);
    AdmitOk(k.ctls[c], k.lastId + 1, None);
    forall d | d in k'.ctls ensures CtlOk(k', d) {
      assert CtlOk(k, d);
      if d != c { AdmissionKeepsBarrier(k, k', c, d); }
    }
  }

  lemma FirstAddEntries(k: Core, c: Ref)
    requires CtlsOk(k) && EntriesOk(k) && IdsDistinct(k) && AddCommits(k, c, None)
    ensures EntriesOk(FirstAdd(k, c)) && IdsDistinct(FirstAdd(k, c))
  {
    hide Ok, BarrierOk;
    var k' := FirstAdd(k, c);
    forall r | r in k'.entries ensures EntryOk(k', r) {
      if r != k.ctls[c].run { assert EntryOk(k, r); }
    }
    forall d | d in k.ctls ensures k.ctls[d].id <= k.lastId { assert CtlOk(k, d); }
    hide CtlsOk;
  }

  lemma FirstAddHandoff(k: Core, c: Ref)
    requires CtlsOk(k) && EntriesOk(k) && HandoffOk(k) && AddCommits(k, c, None)
    ensures HandoffOk(FirstAdd(k, c))
  {
    hide Ok;
    var k' := FirstAdd(k, c);
    assert CtlOk(k, c);
    AdmitOk(k.ctls[c], k.lastId + 1, None);
    hide CtlsOk;
    forall d | Uncleaned(k', d) ensures Covered(k', d) {
      assert Uncleaned(k, d) && Covered(k, d);
      var r := k.ctls[d].run;
      if r in k.entries { assert EntryOk(k, r); }
    }
    hide Covered;
  }

  lemma FirstAddOk(k: Core, c: Ref)
    requires CoreOk(k) && AddCommits(k, c, None)
    ensures CoreOk(FirstAdd(k, c))
  {
    hide CtlsOk, IdsDistinct, EntriesOk, HandoffOk, Names.Inv, Registry.Inv, Registry.OnlineAs;
    FirstAddCtls(k, c);
    FirstAddEntries(k, c);
    FirstAddHandoff(k, c);
  }

  /** The barrier a successor gets: the worker of the control it replaces, or
      whatever that control itself was still waiting for. */
  lemma ReplacedBarrierOk(k: Core, p: Ref)
    requires p in k.ctls && CtlOk(k, p)
    requires (k.ctls[p].state.Pending? || k.ctls[p].state.Running? || k.ctls[p].state.Closing?)
    ensures var b := ReplacedBarrier(k.ctls[p], p);
            b.Some? ==> b.value in k.ctls && k.ctls[b.value].run == k.ctls[p].run
                        && k.ctls[b.value].id <= k.lastId && k.ctls[b.value].started
  {
    hide PoolOk;
  }

  lemma CloseIsSeemly(x: Ctl)
    requires Ok(x)
    ensures Ok(Close(x)) && Seemly(x, Close(x)) && Close(x).waited == x.waited
    ensures Close(x).started == x.started && Close(x).cleaned == x.cleaned
  {
    CloseOk(x);
    hide Ok;
  }

  predicate Replaces(k: Core, c: Ref, p: Ref) {
    c in k.ctls && k.ctls[c].state.Created? && k.ctls[c].run in k.entries && k.entries[k.ctls[c].run].ctl == p
    && p in k.ctls && p != c
  }

  lemma ReplacingAddCtls(k: Core, c: Ref, p: Ref)
    requires CtlsOk(k) && Replaces(k, c, p) && EntryOk(k, k.ctls[c].run)
    ensures CtlsOk(ReplacingAdd(k, c))
  {
    hide Ok, Close;
    var k' := ReplacingAdd(k, c);
    assert CtlOk(k, c) && CtlOk(k, p);
    ReplacedBarrierOk(k, p);
    var b := ReplacedBarrier(k.ctls[p], p);
    AdmitOk(k.ctls[c], k.lastId + 1, b);
    CloseIsSeemly(k.ctls[p]);
    hide ReplacedBarrier;
    forall d | d in k'.ctls ensures CtlOk(k', d) {
      assert CtlOk(k, d);
      if d != c { AdmissionKeepsBarrier(k, k', c, d); }
    }
  }

  lemma ReplacingAddEntries(k: Core, c: Ref, p: Ref)
    requires CtlsOk(k) && EntriesOk(k) && IdsDistinct(k) && Replaces(k, c, p)
    ensures EntriesOk(ReplacingAdd(k, c)) && IdsDistinct(ReplacingAdd(k, c))
  {
    hide Ok, BarrierOk, Close;
    var k' := ReplacingAdd(k, c);
    assert CtlOk(k, p);
    CloseIsSeemly(k.ctls[p]);
    forall r | r in k'.entries ensures EntryOk(k', r) {
      assert EntryOk(k, r);
    }
    forall d | d in k.ctls ensures k.ctls[d].id <= k.lastId { assert CtlOk(k, d); }
    hide CtlsOk;
  }

  lemma ReplacingAddCover(k: Core, c: Ref, p: Ref, d: Ref)
    requires Replaces(k, c, p) && EntriesOk(k) && d in k.ctls && d != c && Covered(k, d)
    requires k.ctls[d].started && (k.ctls[p].started ==> !k.ctls[p].state.Pending?)
    requires Close(k.ctls[p]).run == k.ctls[p].run && !k.ctls[c].waited
    ensures Covered(ReplacingAdd(k, c), d)
  {
    hide Close, Ok;
    var r := k.ctls[d].run;
    if r in k.entries { assert EntryOk(k, r); }
    assert EntryOk(k, k.ctls[c].run);
  }

  lemma StartedIsNotPending(x: Ctl)
    requires Ok(x)
    ensures x.started ==> !x.state.Pending? && !x.state.Created?
  {
    hide PoolOk;
  }

  lemma ReplacingAddHandoff(k: Core, c: Ref, p: Ref)
    requires CtlsOk(k) && EntriesOk(k) && HandoffOk(k) && Replaces(k, c, p)
    ensures HandoffOk(ReplacingAdd(k, c))
  {
    hide Ok, Close;
    var k' := ReplacingAdd(k, c);
    assert CtlOk(k, c) && CtlOk(k, p);
    AdmitOk(k.ctls[c], k.lastId + 1, None);
    CloseIsSeemly(k.ctls[p]);
    StartedIsNotPending(k.ctls[p]);
    hide CtlsOk, ReplacedBarrier, Covered;
    forall d | Uncleaned(k', d) ensures Covered(k', d) {
      assert Uncleaned(k, d);
      ReplacingAddCover(k, c, p, d);
    }
  }

  lemma ReplacingAddOk(k: Core, c: Ref, p: Ref)
    requires CoreOk(k) && Replaces(k, c, p)
    ensures CoreOk(ReplacingAdd(k, c))
  {
    hide CtlsOk, IdsDistinct, EntriesOk, HandoffOk, RegistryOk, Names.Inv, Close, Ok, EntryOk, ReplacedBarrier;
    EntryHolds(k, k.ctls[c].run);
    ReplacingAddCtls(k, c, p);
    ReplacingAddEntries(k, c, p);
    ReplacingAddHandoff(k, c, p);
    ReplacingAddRegistry(k, c);
  }

  lemma EntryHolds(k: Core, r: string)
    requires EntriesOk(k) && r in k.entries
    ensures EntryOk(k, r)
  {
  }

  lemma ReplacingAddRegistry(k: Core, c: Ref)
    requires c in k.ctls && k.ctls[c].run in k.entries && k.entries[k.ctls[c].run].ctl in k.ctls && RegistryOk(k)
    ensures RegistryOk(ReplacingAdd(k, c))
  {
    hide Registry.Inv, Registry.OnlineAs, Close, ReplacedBarrier;
  }

  // ----- Activate -----

  /** The control half of an activation. */
  lemma ActivateIsSafe(k: Core, c: Ref)
    requires CtlsOk(k) && c in k.ctls && k.ctls[c].state.Pending? && k.ctls[c].waited
    ensures SafeUpdate(k, c, k.ctls[c].(activated := true))
  {
    assert CtlOk(k, c);
    hide CtlsOk, PoolOk;
  }

  lemma ActivatedRegistry(k: Core, c: Ref, now: int)
    requires RegistryOk(k) && Current(k, c) && k.ctls[c].run != ""
    requires !Registry.Conflicts(k.reg, k.ctls[c].login, k.ctls[c].run)
    ensures RegistryOk(Activated(k, c, now))
    ensures Registry.OnlineAs(Activated(k, c, now).reg, k.ctls[c].run) == Some(k.entries[k.ctls[c].run].id)
  {
    hide Registry.Inv, Registry.Registered, Registry.OnlineAs, Registry.Conflicts, Registry.Evicted;
    var x := k.ctls[c];
    var e := k.entries[x.run];
    Registry.RegisterKeepsInv(k.reg, x.login, x.run, e.id, now);
    Registry.RegisterEffect(k.reg, x.login, x.run, e.id, now);
    OnlineAfterRegister(k, Activated(k, c, now), x.run);
  }

  lemma OnlineAfterRegister(k: Core, k': Core, run: string)
    requires RegistryOk(k) && Registry.Inv(k'.reg) && run in k.entries && run in k'.entries
    requires k'.entries == k.entries[run := k'.entries[run]] && k'.entries[run].online
    requires Registry.OnlineAs(k'.reg, run) == Some(k'.entries[run].onlineId)
    requires forall r :: r != run && Registry.OnlineAs(k'.reg, r).Some? ==>
               Registry.OnlineAs(k'.reg, r) == Registry.OnlineAs(k.reg, r)
    ensures RegistryOk(k')
  {
    hide Registry.Inv, Registry.OnlineAs;
  }

  lemma ActivatedOk(k: Core, c: Ref, now: int)
    requires CoreOk(k) && Current(k, c) && k.ctls[c].state.Pending? && k.ctls[c].waited && k.ctls[c].run != ""
    requires !Registry.Conflicts(k.reg, k.ctls[c].login, k.ctls[c].run)
    ensures CoreOk(Activated(k, c, now))
  {
    hide CtlsOk, IdsDistinct, EntriesOk, HandoffOk, RegistryOk, Names.Inv, SafeUpdate, Ok, Registry.Conflicts,
        Registry.Registered;
    ActivateIsSafe(k, c);
    ActivatedRegistry(k, c, now);
    var mid := SetCtl(k, c, k.ctls[c].(activated := true));
    UpdateOk(k, c, k.ctls[c].(activated := true));
    OnlineFlagsOk(mid, Activated(k, c, now));
  }

  /** Only the registry and the entries' registry fields may differ. */
  lemma OnlineFlagsOk(k: Core, k': Core)
    requires CtlsOk(k) && IdsDistinct(k) && EntriesOk(k) && HandoffOk(k)
    requires k' == k.(reg := k'.reg, entries := k'.entries) && k'.entries.Keys == k.entries.Keys
    requires forall r :: r in k.entries ==> SeenOf(k'.entries[r]) == SeenOf(k.entries[r])
    ensures CtlsOk(k') && IdsDistinct(k') && EntriesOk(k') && HandoffOk(k')
  {
    hide Ok, HandoffOk;
    forall c | c in k'.ctls ensures CtlOk(k', c) { assert CtlOk(k, c); }
    hide CtlsOk;
    forall r | r in k'.entries ensures EntryOk(k', r) {
      assert EntryOk(k, r) && SeenOf(k'.entries[r]) == SeenOf(k.entries[r]);
    }
    hide EntriesOk;
    OnlineFlagsHandoff(k, k');
  }

  lemma OnlineFlagsHandoff(k: Core, k': Core)
    requires HandoffOk(k) && k'.ctls == k.ctls && k'.closed == k.closed && k'.entries.Keys == k.entries.Keys
    requires forall r :: r in k.entries ==> SeenOf(k'.entries[r]) == SeenOf(k.entries[r])
    ensures HandoffOk(k')
  {
    forall d | Uncleaned(k', d) ensures Covered(k', d) {
      assert Uncleaned(k, d) && Covered(k, d);
      var r := k.ctls[d].run;
      if r in k.entries { assert SeenOf(k'.entries[r]) == SeenOf(k.entries[r]); }
    }
    hide Covered;
  }

  // ----- Remove -----

  lemma RemovedRegistry(k: Core, r: string, now: int)
    requires RegistryOk(k) && r in k.entries
    ensures RegistryOk(Removed(k, r, now)) && Registry.OnlineAs(Removed(k, r, now).reg, r) == None
  {
    var e := k.entries[r];
    hide Registry.Inv, Registry.MarkedOffline, Registry.OnlineAs;
    Registry.MarkOfflineKeepsInv(k.reg, r, Some(e.onlineId), now);
    Registry.MarkOfflineEffect(k.reg, r, e.onlineId, now);
  }

  lemma RemovedCtls(k: Core, r: string, now: int)
    requires CtlsOk(k) && IdsDistinct(k) && EntriesOk(k) && r in k.entries
    ensures var k' := Removed(k, r, now); CtlsOk(k') && IdsDistinct(k') && EntriesOk(k')
  {
    hide Ok, Registry.MarkedOffline;
    var k' := Removed(k, r, now);
    forall c | c in k'.ctls ensures CtlOk(k', c) { assert CtlOk(k, c); }
    forall q | q in k'.entries ensures EntryOk(k', q) { assert EntryOk(k, q); }
  }

  lemma RemovedHandoff(k: Core, r: string, now: int)
    requires HandoffOk(k) && r in k.entries
    requires k.closed || forall d :: Uncleaned(k, d) ==> k.ctls[d].run != r
    ensures HandoffOk(Removed(k, r, now))
  {
    hide Registry.MarkedOffline;
    var k' := Removed(k, r, now);
    forall d | Uncleaned(k', d) ensures Covered(k', d) {
      assert Uncleaned(k, d) && Covered(k, d);
    }
    hide Covered;
  }

  lemma RemovedOk(k: Core, r: string, now: int)
    requires CoreOk(k) && r in k.entries
    requires k.closed || forall d :: Uncleaned(k, d) ==> k.ctls[d].run != r
    ensures CoreOk(Removed(k, r, now))
  {
    hide CtlsOk, IdsDistinct, EntriesOk, HandoffOk, RegistryOk, Names.Inv;
    RemovedRegistry(k, r, now);
    RemovedCtls(k, r, now);
    RemovedHandoff(k, r, now);
  }

  // ----- New logins, the closed flag, names and counters -----

  lemma NewLoginCtls(k: Core, k': Core, c: Ref)
    requires CtlsOk(k) && c !in k.ctls && c in k'.ctls && c in k'.names.act && k'.lastId == k.lastId
    requires k'.ctls == k.ctls[c := k'.ctls[c]] && Ok(k'.ctls[c]) && k'.ctls[c].id == 0 && k'.ctls[c].barrier.None?
    requires !k'.ctls[c].cleaned && k'.names.act[c].Idle?
    requires k'.names.act == k.names.act[c := k'.names.act[c]]
    ensures CtlsOk(k')
  {
    hide Ok;
    forall d | d in k'.ctls ensures CtlOk(k', d) { if d != c { assert CtlOk(k, d); } }
  }

  lemma NewLoginOk(k: Core, c: Ref, run: string, login: Registry.Login, poolCount: nat)
    requires CoreOk(k) && c !in k.ctls && c !in k.names.act && run != ""
    ensures CoreOk(k.(ctls := k.ctls[c := NewControl(run, login, poolCount)], names := Names.NewOwner(k.names, c)))
  {
    hide Names.Inv, CtlsOk, RegistryOk, HandoffOk, EntriesOk, Ok, IdsDistinct;
    var k' := k.(ctls := k.ctls[c := NewControl(run, login, poolCount)], names := Names.NewOwner(k.names, c));
    Names.NewOwnerKeepsInv(k.names, c);
    NewControlOk(run, login, poolCount);
    NewLoginCtls(k, k', c);
    NewLoginEntries(k, k', c);
    NewLoginHandoff(k, k', c);
    NewLoginRegistry(k, k');
  }

  lemma NewControlOk(run: string, login: Registry.Login, poolCount: nat)
    requires run != ""
    ensures Ok(NewControl(run, login, poolCount))
  {
  }

  lemma NewLoginRegistry(k: Core, k': Core)
    requires RegistryOk(k) && k'.reg == k.reg && k'.entries == k.entries
    ensures RegistryOk(k')
  {
    hide Registry.Inv, Registry.OnlineAs;
  }

  lemma NewLoginEntries(k: Core, k': Core, c: Ref)
    requires EntriesOk(k) && IdsDistinct(k) && c !in k.ctls && c in k'.ctls && k'.ctls == k.ctls[c := k'.ctls[c]]
    requires k'.ctls[c].id == 0 && k'.entries == k.entries
    ensures EntriesOk(k') && IdsDistinct(k')
  {
    forall r | r in k'.entries ensures EntryOk(k', r) { assert EntryOk(k, r); }
  }

  lemma NewLoginHandoff(k: Core, k': Core, c: Ref)
    requires HandoffOk(k) && EntriesOk(k) && c !in k.ctls && c in k'.ctls && k'.ctls == k.ctls[c := k'.ctls[c]]
    requires !k'.ctls[c].started
    requires k'.entries == k.entries && k'.closed == k.closed
    ensures HandoffOk(k')
  {
    forall d | Uncleaned(k', d) ensures Covered(k', d) {
      assert Uncleaned(k, d) && Covered(k, d);
      if k.ctls[d].run in k.entries { assert EntryOk(k, k.ctls[d].run); }
    }
    hide Covered;
  }

  /** A control without a worker has no proxy handler at work, a cleaned one has swept. */
  predicate NamesFit(x: Ctl, a: Names.Activity) {
    (x.cleaned ==> a.Swept?) && (!x.started ==> a.Idle?)
  }

  /** Steps that touch only the closed flag, the counters, the last ID, the names or the connections. */
  lemma FrameOk(k: Core, k': Core)
    requires CoreOk(k) && Names.Inv(k'.names)
    requires k' == k.(closed := k'.closed, lastId := k'.lastId, names := k'.names, newClients := k'.newClients,
                      closedClients := k'.closedClients, cut := k'.cut, gone := k'.gone)
    requires k.closed ==> k'.closed
    requires k.lastId <= k'.lastId
    requires forall c :: c in k.ctls ==> c in k'.names.act && NamesFit(k.ctls[c], k'.names.act[c])
    ensures CoreOk(k')
  {
    hide Ok, Names.Inv, RegistryOk, HandoffOk;
    forall c | c in k'.ctls ensures CtlOk(k', c) { assert CtlOk(k, c); }
    forall r | r in k'.entries ensures EntryOk(k', r) { assert EntryOk(k, r); }
    hide CtlOk, EntryOk;
    NewLoginRegistry(k, k');
    ClosedFlagHandoff(k, k');
  }

  lemma ClosedFlagHandoff(k: Core, k': Core)
    requires HandoffOk(k) && k'.ctls == k.ctls && (k.closed ==> k'.closed) && k'.entries == k.entries
    ensures HandoffOk(k')
  {
    forall d | Uncleaned(k', d) ensures Covered(k', d) { assert Uncleaned(k, d) && Covered(k, d); }
    hide Covered;
  }
}

/** The sections of Add, Activate and Remove under cm.mu, and the steps that
    change one control, keep the invariant. */
module CommitSteps {
  import opened Options
  import opened Lifecycle
  import opened Protocol
  import opened CoreInvariant
  import opened CoreSteps
  import opened ThreadInvariant
  import opened StepInvariant
  import Registry
  import Names

  // ----- Add -----

  lemma OthersOutside(s: State, t: Tid, g: nat, u: Tid)
    requires Exclusive(s.threads) && t in s.threads && u in s.threads && u != t && GateOf(s.threads[t].pc) == Some(g)
    ensures GateOf(s.threads[u].pc) != Some(g)
  {
  }

  /** The handler of a control that is being added. */
  lemma AdderFacts(k: Core, t: Tid, thr: Thr, maybe: Option<Seen>)
    requires CoreOk(k) && ThreadOk(k, t, thr) && thr.pc == InMgr(Add, maybe)
    ensures t == Handler(thr.ctl) && thr.ctl in k.ctls && k.ctls[thr.ctl].state.Created?
    ensures Ok(k.ctls[thr.ctl]) && k.ctls[thr.ctl].id == 0 && !k.ctls[thr.ctl].started
    ensures !k.ctls[thr.ctl].waited && !k.ctls[thr.ctl].activated
    ensures maybe.Some? ==> SameGate(k, k.ctls[thr.ctl].run, maybe.value)
  {
    hide CoreOk, PoolOk, SameGate, Current;
    CtlHolds(k, thr.ctl);
  }

  lemma FirstAddOthers(s: State, t: Tid)
    requires Inv(s) && t in s.threads && s.threads[t].pc == InMgr(Add, None)
    requires AddCommits(s.core, s.threads[t].ctl, None)
    ensures OthersOk(s, FirstAdd(s.core, s.threads[t].ctl), t)
  {
    hide CoreOk, DomainOk, Exclusive, ThreadOk, Ok;
    var k, c := s.core, s.threads[t].ctl;
    var k' := FirstAdd(k, c);
    ThreadHolds(s, t);
    AdderFacts(k, t, s.threads[t], None);
    assert Admission(k, k', c);
    forall u | u in s.threads && u != t ensures ThreadOk(k', u, s.threads[u]) {
      AdmissionKeepsThread(k, k', c, u, s.threads[u]);
    }
  }

  lemma FirstAddStep(s: State, t: Tid)
    requires Inv(s) && t in s.threads && s.threads[t].pc == InMgr(Add, None)
    requires AddCommits(s.core, s.threads[t].ctl, None)
    ensures Inv(CommitAdd(s, t, None))
  {
    hide CoreOk, DomainOk, Exclusive, ThreadOk, OthersOk, ThreadsOk;
    var k, c := s.core, s.threads[t].ctl;
    var k' := FirstAdd(k, c);
    ThreadHolds(s, t);
    AdderFacts(k, t, s.threads[t], None);
    FirstAddOthers(s, t);
    FirstAddOk(k, c);
    OwnAfterAdd(k', t, s.threads[t], WaitBarrier);
    hide Ok, Inv;
    Assemble(s, t, k', s.threads[t].(pc := WaitBarrier));
  }

  lemma OwnAfterAdd(k: Core, t: Tid, thr: Thr, pc: Pc)
    requires t == Handler(thr.ctl) && thr.ctl in k.ctls && Fresh(k.ctls[thr.ctl])
    requires pc.WaitBarrier? ||
             (pc.Notify? && pc.prev in k.ctls && k.ctls[pc.prev].id > 0 && Rank(k.ctls[pc.prev].state) >= Rank(Closing))
    ensures ThreadOk(k, t, thr.(pc := pc))
  {
  }

  /** The current control is about to be replaced by the handler that holds its gate. */
  lemma ReplacingFacts(s: State, t: Tid, seen: Seen)
    requires Inv(s) && t in s.threads && s.threads[t].pc == InMgr(Add, Some(seen))
    requires AddCommits(s.core, s.threads[t].ctl, Some(seen))
    ensures var k, c := s.core, s.threads[t].ctl;
            var r := k.ctls[c].run;
            && EntryOk(k, r) && Replaces(k, c, k.entries[r].ctl)
            && GateOf(s.threads[t].pc) == Some(k.entries[r].gate)
            && CtlOk(k, k.entries[r].ctl) && k.ctls[k.entries[r].ctl].id > 0
  {
    hide CoreOk, DomainOk, Exclusive, ThreadOk, Ok, ThreadsOk;
    var k, c := s.core, s.threads[t].ctl;
    ThreadHolds(s, t);
    AdderFacts(k, t, s.threads[t], Some(seen));
    EntryOfRun(k, k.ctls[c].run);
    CtlHolds(k, k.entries[k.ctls[c].run].ctl);
    OkFacts(k.ctls[k.entries[k.ctls[c].run].ctl]);
  }

  /** Closing a control is invisible to its own threads except for its state. */
  lemma CloseTolerable(k: Core, p: Ref, u: Tid, thr: Thr)
    requires p in k.ctls && Ok(k.ctls[p]) && ThreadOk(k, u, thr) && k.ctls[p].id > 0
    requires !(thr.pc.Writing? && thr.ctl == p)
    ensures Tolerable(p, k.ctls[p], Close(k.ctls[p]), u, thr)
  {
    CloseOk(k.ctls[p]);
    OkFacts(k.ctls[p]);
    if u == Worker(p) { assert k.ctls[p].started; }
    hide SeenOk, PoolOk, KindOf, Current;
  }

  lemma ReplacingAddOther(s: State, t: Tid, seen: Seen, p: Ref, u: Tid)
    requires Inv(s) && t in s.threads && s.threads[t].pc == InMgr(Add, Some(seen)) && u in s.threads && u != t
    requires AddCommits(s.core, s.threads[t].ctl, Some(seen)) && Replaces(s.core, s.threads[t].ctl, p) && LifeFree(s, p)
    ensures ThreadOk(ReplacingAdd(s.core, s.threads[t].ctl), u, s.threads[u])
  {
    hide CoreOk, DomainOk, Exclusive, ThreadOk, Ok, ThreadsOk, GateOf;
    var k, c := s.core, s.threads[t].ctl;
    var r := k.ctls[c].run;
    ThreadHolds(s, t);
    ThreadHolds(s, u);
    InvParts(s);
    AdderFacts(k, t, s.threads[t], Some(seen));
    ReplacingFacts(s, t, seen);
    CloseIsSeemly(k.ctls[p]);
    CloseTolerable(k, p, u, s.threads[u]);
    UpdateKeepsThread(k, p, Close(k.ctls[p]), u, s.threads[u]);
    OthersOutside(s, t, k.entries[r].gate, u);
    var mid := SetCtl(k, p, Close(k.ctls[p]));
    var k' := ReplacingAdd(k, c);
    hide Inv, Close, ReplacedBarrier, Tolerable;
    assert Admission(mid, k', c);
    AdmissionKeepsThread(mid, k', c, u, s.threads[u]);
  }

  lemma ReplacingAddStep(s: State, t: Tid, seen: Seen, p: Ref)
    requires Inv(s) && t in s.threads && s.threads[t].pc == InMgr(Add, Some(seen))
    requires AddCommits(s.core, s.threads[t].ctl, Some(seen)) && Replaces(s.core, s.threads[t].ctl, p) && LifeFree(s, p)
    ensures Inv(CommitAdd(s, t, Some(seen)))
  {
    hide CoreOk, DomainOk, Exclusive, ThreadOk, ThreadsOk, Ok, Close, ReplacedBarrier, LifeFree;
    var k, c := s.core, s.threads[t].ctl;
    var k' := ReplacingAdd(k, c);
    ThreadHolds(s, t);
    InvParts(s);
    AdderFacts(k, t, s.threads[t], Some(seen));
    ReplacingFacts(s, t, seen);
    ReplacingAddOk(k, c, p);
    forall u | u in s.threads && u != t ensures ThreadOk(k', u, s.threads[u]) {
      ReplacingAddOther(s, t, seen, p, u);
    }
    CloseIsSeemly(k.ctls[p]);
    ClosedEnough(k.ctls[p]);
    hide Inv;
    OwnAfterAdd(k', t, s.threads[t], Notify(p));
    Assemble(s, t, k', s.threads[t].(pc := Notify(p)));
  }

  lemma ClosedEnough(x: Ctl)
    requires Ok(x)
    ensures Rank(Close(x).state) >= Rank(Closing)
  {
    CloseOk(x);
    hide Ok;
  }

  lemma CommitAddOk(s: State, t: Tid, maybe: Option<Seen>)
    requires Inv(s) && t in s.threads && s.threads[t].pc == InMgr(Add, maybe) && Unblocked(s, t)
    ensures Inv(CommitAdd(s, t, maybe))
  {
    hide CoreOk, DomainOk, Exclusive, ThreadOk, ThreadsOk;
    var k, thr := s.core, s.threads[t];
    ThreadHolds(s, t);
    AdderFacts(k, t, thr, maybe);
    hide Ok;
    if AddCommits(k, thr.ctl, maybe) {
      if maybe.None? { FirstAddStep(s, t); } else {
        ReplacingFacts(s, t, maybe.value);
        ReplacingAddStep(s, t, maybe.value, k.entries[k.ctls[thr.ctl].run].ctl);
      }
    } else if !k.closed {
      SameKindOk(k, t, thr, Read(Add));
      MoveOnly(s, t, thr.(pc := Read(Add)));
    } else {
      FailureOk(k, t, thr, Add);
      assert s.(core := k.(lastId := k.lastId)) == s;
      MoveOnly(s, t, thr.(pc := AfterFailure(t, Add)));
    }
  }

  // ----- Activate -----

  lemma ActivatedOthers(s: State, t: Tid, now: int)
    requires Inv(s) && t in s.threads && Current(s.core, s.threads[t].ctl) && t == Handler(s.threads[t].ctl)
    ensures OthersOk(s, Activated(s.core, s.threads[t].ctl, now), t)
  {
    hide CoreOk, DomainOk, Exclusive, ThreadOk, Registry.Registered;
    var k, c := s.core, s.threads[t].ctl;
    var y := k.ctls[c].(activated := true);
    var mid, k' := SetCtl(k, c, y), Activated(k, c, now);
    assert Undisturbed(mid, k');
    forall u | u in s.threads && u != t ensures ThreadOk(k', u, s.threads[u]) {
      ActivateTolerable(k.ctls[c], c, u, s.threads[u]);
      UpdateKeepsThread(k, c, y, u, s.threads[u]);
      UndisturbedKeepsThread(mid, k', u, s.threads[u]);
    }
  }

  lemma ActivateTolerable(x: Ctl, c: Ref, u: Tid, thr: Thr)
    requires u != Handler(c)
    ensures Tolerable(c, x, x.(activated := true), u, thr)
  {
  }

  lemma OwnAfterActivate(k: Core, t: Tid, thr: Thr)
    requires t == Handler(thr.ctl) && thr.ctl in k.ctls
    requires k.ctls[thr.ctl].id > 0 && k.ctls[thr.ctl].activated && !k.ctls[thr.ctl].started
    ensures ThreadOk(k, t, thr.(pc := Read(Login)))
  {
  }

  lemma ActivatorFacts(k: Core, t: Tid, thr: Thr, seen: Seen)
    requires CoreOk(k) && ThreadOk(k, t, thr) && thr.pc == InMgr(Activate, Some(seen))
    ensures t == Handler(thr.ctl) && thr.ctl in k.ctls && Holds(k, k.ctls[thr.ctl].run, seen)
    ensures k.ctls[thr.ctl].id > 0 && k.ctls[thr.ctl].waited && !k.ctls[thr.ctl].activated && !k.ctls[thr.ctl].started
    ensures k.ctls[thr.ctl].run != ""
  {
    hide CoreOk, PoolOk, Current;
    CtlHolds(k, thr.ctl);
  }

  lemma CommitActivateOk(s: State, t: Tid, seen: Seen, now: int)
    requires Inv(s) && t in s.threads && s.threads[t].pc == InMgr(Activate, Some(seen))
    ensures Inv(CommitActivate(s, t, seen, now))
  {
    hide CoreOk, DomainOk, Exclusive, ThreadOk, ThreadsOk, Registry.Conflicts, Registry.Registered;
    var k, thr := s.core, s.threads[t];
    var c := thr.ctl;
    ThreadHolds(s, t);
    ActivatorFacts(k, t, thr, seen);
    if ActivationOpen(k, c, seen) && !Registry.Conflicts(k.reg, k.ctls[c].login, k.ctls[c].run) {
      assert Current(k, c);
      ActivatedOk(k, c, now);
      ActivatedOthers(s, t, now);
      var k' := Activated(k, c, now);
      hide Inv, OthersOk;
      OwnAfterActivate(k', t, thr);
      Assemble(s, t, k', thr.(pc := Read(Login)));
    } else {
      FailureOk(k, t, thr, Activate);
      MoveOnly(s, t, thr.(pc := AfterFailure(t, Activate)));
    }
  }

  // ----- Remove -----

  /** Whoever removes the current control has no uncleaned predecessor behind it. */
  lemma RemoverFacts(k: Core, t: Tid, thr: Thr, seen: Seen)
    requires CoreOk(k) && ThreadOk(k, t, thr) && thr.pc == InMgr(Remove, Some(seen))
    ensures thr.ctl in k.ctls && Holds(k, k.ctls[thr.ctl].run, seen) && GateOf(thr.pc) == Some(seen.gate)
    ensures OwnsEntry(k, thr.ctl, seen) ==> k.closed || forall d :: Uncleaned(k, d) ==>
            k.ctls[d].run != k.ctls[thr.ctl].run
    ensures !OwnsEntry(k, thr.ctl, seen) ==> !Current(k, thr.ctl)
  {
    hide CtlsOk, RegistryOk, IdsDistinct, Names.Inv, Ok;
    CtlHolds(k, thr.ctl);
    OkFacts(k.ctls[thr.ctl]);
    assert EntryOk(k, k.ctls[thr.ctl].run);
    hide EntriesOk;
    if !k.closed && OwnsEntry(k, thr.ctl, seen) {
      forall d | Uncleaned(k, d) ensures k.ctls[d].run != k.ctls[thr.ctl].run {
        assert Covered(k, d);
      }
    }
    hide CoreOk, HandoffOk, KindOf;
  }

  lemma RemovedOthers(s: State, t: Tid, seen: Seen, now: int)
    requires Inv(s) && t in s.threads && s.threads[t].pc == InMgr(Remove, Some(seen))
    requires s.threads[t].ctl in s.core.ctls && Holds(s.core, s.core.ctls[s.threads[t].ctl].run, seen)
    ensures OthersOk(s, Removed(s.core, s.core.ctls[s.threads[t].ctl].run, now), t)
  {
    hide CoreOk, DomainOk, Exclusive, ThreadOk, Registry.MarkedOffline;
    var k, r := s.core, s.core.ctls[s.threads[t].ctl].run;
    var k' := Removed(k, r, now);
    forall u | u in s.threads && u != t ensures ThreadOk(k', u, s.threads[u]) {
      OthersOutside(s, t, seen.gate, u);
      VacatedKeepsThread(k, k', r, u, s.threads[u]);
    }
  }

  lemma OwnAfterRemove(k: Core, k': Core, t: Tid, thr: Thr, seen: Seen)
    requires ThreadOk(k, t, thr) && thr.pc == InMgr(Remove, Some(seen)) && !Current(k', thr.ctl)
    requires k'.ctls == k.ctls && k'.names == k.names && k'.closed == k.closed
    ensures ThreadOk(k', t, thr.(pc := AfterRemove(t)))
  {
    hide SeenOk, Current;
    SeenTrivial(k', thr.ctl, AfterRemove(t));
  }

  lemma CommitRemoveOk(s: State, t: Tid, seen: Seen, now: int)
    requires Inv(s) && t in s.threads && s.threads[t].pc == InMgr(Remove, Some(seen))
    ensures Inv(CommitRemove(s, t, seen, now))
  {
    hide CoreOk, DomainOk, Exclusive, ThreadOk, ThreadsOk, Registry.MarkedOffline;
    var k, thr := s.core, s.threads[t];
    ThreadHolds(s, t);
    RemoverFacts(k, t, thr, seen);
    if OwnsEntry(k, thr.ctl, seen) {
      var r := k.ctls[thr.ctl].run;
      RemovedOk(k, r, now);
      RemovedOthers(s, t, seen, now);
      var k' := Removed(k, r, now);
      OwnAfterRemove(k, k', t, thr, seen);
      hide Inv, OthersOk;
      Assemble(s, t, k', thr.(pc := AfterRemove(t)));
    } else {
      OwnAfterRemove(k, k, t, thr, seen);
      MoveOnly(s, t, thr.(pc := AfterRemove(t)));
    }
  }
}

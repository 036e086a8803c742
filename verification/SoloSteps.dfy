/** The steps that change one control or none of the map: login completion,
    delivery of work connections, waiting, closing, and the worker's clean-up. */
module SoloSteps {
  import opened Lifecycle
  import opened Protocol
  import opened CoreInvariant
  import opened ThreadInvariant
  import opened StepInvariant
  import opened CommitSteps
  import Names

  ghost predicate AllTolerate(s: State, c: Ref, y: Ctl, except: set<Tid>) {
    c in s.core.ctls &&
    forall u :: u in s.threads && u !in except ==> Tolerable(c, s.core.ctls[c], y, u, s.threads[u])
  }

  lemma UpdateOthers(s: State, c: Ref, y: Ctl, u: Tid, except: set<Tid>)
    requires Inv(s) && AllTolerate(s, c, y, except) && u in s.threads && u !in except
    ensures ThreadOk(SetCtl(s.core, c, y), u, s.threads[u])
  {
    hide CoreOk, DomainOk, Exclusive, ThreadOk, Tolerable;
    UpdateKeepsThread(s.core, c, y, u, s.threads[u]);
  }

  /** A step of `t` that changes control `c`. */
  lemma UpdateStep(s: State, t: Tid, c: Ref, y: Ctl, thr: Thr)
    requires Inv(s) && t in s.threads && SafeUpdate(s.core, c, y) && y.started == s.core.ctls[c].started
    requires ThreadOk(SetCtl(s.core, c, y), t, thr) && LocksOk(s, t, thr.pc) && AllTolerate(s, c, y, {t})
    ensures Inv(State(SetCtl(s.core, c, y), s.threads[t := thr]))
  {
    hide CoreOk, DomainOk, Exclusive, ThreadOk, LocksOk;
    var k' := SetCtl(s.core, c, y);
    InvParts(s);
    UpdateOk(s.core, c, y);
    forall u | u in s.threads && u != t ensures ThreadOk(k', u, s.threads[u]) {
      UpdateOthers(s, c, y, u, {t});
    }
    hide SafeUpdate, AllTolerate, Inv;
    Assemble(s, t, k', thr);
  }

  /** A change of control `c` by no thread of the machine. */
  lemma OutsideUpdate(s: State, c: Ref, y: Ctl)
    requires Inv(s) && c in s.core.ctls && SafeUpdate(s.core, c, y) && y.started == s.core.ctls[c].started
    requires AllTolerate(s, c, y, {})
    ensures Inv(s.(core := SetCtl(s.core, c, y)))
  {
    hide CoreOk, Exclusive, ThreadOk, SafeUpdate, AllTolerate;
    var s' := s.(core := SetCtl(s.core, c, y));
    InvParts(s);
    UpdateOk(s.core, c, y);
    forall u | u in s.threads ensures ThreadOk(s'.core, u, s.threads[u]) {
      UpdateOthers(s, c, y, u, {});
    }
  }

  // ----- Updates that are safe -----

  /** Nothing but the pool changes, or the pool's history. */
  predicate Quiet(x: Ctl, y: Ctl) {
    y == x.(pool := y.pool, accepted := y.accepted, taken := y.taken, drained := y.drained)
  }

  lemma QuietIsSafe(k: Core, c: Ref, y: Ctl)
    requires CoreOk(k) && c in k.ctls && Quiet(k.ctls[c], y) && Ok(y) && Forward(k.ctls[c], y)
    ensures SafeUpdate(k, c, y)
  {
    hide CoreOk, Ok, Forward, Uncleaned, BarrierOk;
    CtlHolds(k, c);
    if Current(k, c) { EntryOfRun(k, k.ctls[c].run); }
  }

  lemma QuietTolerable(c: Ref, x: Ctl, y: Ctl, u: Tid, thr: Thr)
    requires Quiet(x, y) && (x.poolClosed && x.pool == [] ==> y.pool == [])
    ensures Tolerable(c, x, y, u, thr)
  {
  }

  lemma CloseIsSafe(k: Core, c: Ref)
    requires CoreOk(k) && c in k.ctls && (k.ctls[c].started || !Current(k, c))
    ensures SafeUpdate(k, c, Close(k.ctls[c])) && Close(k.ctls[c]).started == k.ctls[c].started
  {
    hide CoreOk, PoolOk, Uncleaned, BarrierOk;
    CtlHolds(k, c);
    CloseOk(k.ctls[c]);
    if Current(k, c) { EntryOfRun(k, k.ctls[c].run); }
    hide Close, Forward;
  }

  lemma CloseAllTolerate(s: State, c: Ref, except: set<Tid>)
    requires Inv(s) && c in s.core.ctls && LifeFree(s, c) && (s.core.ctls[c].id > 0 || Handler(c) in except)
    ensures AllTolerate(s, c, Close(s.core.ctls[c]), except)
  {
    hide CoreOk, DomainOk, Exclusive, ThreadOk, Ok, Tolerable, Close;
    CtlHolds(s.core, c);
    forall u | u in s.threads && u !in except
      ensures Tolerable(c, s.core.ctls[c], Close(s.core.ctls[c]), u, s.threads[u])
    {
      if s.core.ctls[c].id > 0 {
        CloseTolerable(s.core, c, u, s.threads[u]);
      } else {
        CloseUnadmitted(s.core, c, u, s.threads[u]);
      }
    }
  }

  lemma CloseUnadmitted(k: Core, c: Ref, u: Tid, thr: Thr)
    requires c in k.ctls && Ok(k.ctls[c]) && ThreadOk(k, u, thr) && k.ctls[c].id == 0 && u != Handler(c)
    ensures Tolerable(c, k.ctls[c], Close(k.ctls[c]), u, thr)
  {
    CloseOk(k.ctls[c]);
    OkFacts(k.ctls[c]);
    hide SeenOk, PoolOk, KindOf, Current;
  }

  // ----- Login completion -----

  lemma BeginLoginOk(s: State, t: Tid, seen: Seen)
    requires Inv(s) && t in s.threads && s.threads[t].pc == HaveRun(Login, seen)
    ensures Inv(BeginLogin(s, t, seen))
  {
    hide CoreOk, DomainOk, Exclusive, ThreadsOk, ThreadOk;
    var k, thr := s.core, s.threads[t];
    ThreadHolds(s, t);
    InvParts(s);
    hide Inv;
    if thr.ctl in k.ctls && seen.ctl == thr.ctl && seen.ent == k.ctls[thr.ctl].id && CanStart(k.ctls[thr.ctl]) {
      WritingOk(k, t, thr, seen);
      MoveOnly(s, t, thr.(pc := Writing(seen)));
    } else {
      FailureOk(k, t, thr, Login);
      MoveOnly(s, t, thr.(pc := AfterFailure(t, Login)));
    }
  }

  lemma WritingOk(k: Core, t: Tid, thr: Thr, seen: Seen)
    requires ThreadOk(k, t, thr) && thr.pc == HaveRun(Login, seen) && thr.ctl in k.ctls && CanStart(k.ctls[thr.ctl])
    requires seen.ctl == thr.ctl
    ensures ThreadOk(k, t, thr.(pc := Writing(seen)))
  {
  }

  /** While the response is written the control is current, activated and pending,
      and no earlier generation of its run is uncleaned. */
  lemma WriterFacts(k: Core, t: Tid, thr: Thr, seen: Seen)
    requires CoreOk(k) && ThreadOk(k, t, thr) && thr.pc == Writing(seen)
    ensures t == Handler(thr.ctl) && thr.ctl in k.ctls && Current(k, thr.ctl) && CanStart(k.ctls[thr.ctl])
    ensures !k.ctls[thr.ctl].started && k.ctls[thr.ctl].waited
    ensures forall d :: Uncleaned(k, d) ==> k.ctls[d].run != k.ctls[thr.ctl].run
  {
    hide CtlsOk, RegistryOk, IdsDistinct, Names.Inv, Ok, EntriesOk;
    CtlHolds(k, thr.ctl);
    OkFacts(k.ctls[thr.ctl]);
    forall d | Uncleaned(k, d) ensures k.ctls[d].run != k.ctls[thr.ctl].run {
      assert Covered(k, d);
    }
    hide CoreOk, HandoffOk;
  }

  function Begun(x: Ctl): Ctl {
    Start(x.(loginWrites := x.loginWrites + 1))
  }

  lemma StartIsSafe(k: Core, c: Ref)
    requires CoreOk(k) && c in k.ctls && Current(k, c) && CanStart(k.ctls[c]) && !k.ctls[c].started
    requires forall d :: Uncleaned(k, d) ==> k.ctls[d].run != k.ctls[c].run
    ensures SafeUpdate(k, c, Begun(k.ctls[c]))
    ensures !Begun(k.ctls[c]).cleaned && !Begun(k.ctls[c]).poolClosed && c in k.names.act && k.names.act[c].Idle?
  {
    hide CoreOk, BarrierOk;
    CtlHolds(k, c);
  }

  lemma StartTolerable(c: Ref, x: Ctl, u: Tid, thr: Thr)
    requires u != Handler(c) && u != Worker(c) && x.state.Pending?
    ensures Tolerable(c, x, Begun(x), u, thr)
  {
  }

  lemma StartThreads(s: State, c: Ref)
    requires Inv(s) && c in s.core.ctls && s.core.ctls[c].state.Pending? && Worker(c) !in s.threads
    ensures forall u :: u in s.threads && u != Handler(c) ==>
              ThreadOk(SetCtl(s.core, c, Begun(s.core.ctls[c])), u, s.threads[u])
  {
    hide CoreOk, DomainOk, Exclusive, ThreadOk, Ok, Tolerable;
    forall u | u in s.threads && u != Handler(c)
      ensures ThreadOk(SetCtl(s.core, c, Begun(s.core.ctls[c])), u, s.threads[u])
    {
      StartTolerable(c, s.core.ctls[c], u, s.threads[u]);
      UpdateKeepsThread(s.core, c, Begun(s.core.ctls[c]), u, s.threads[u]);
    }
  }

  lemma NewPcsOk(k: Core, c: Ref, thr: Thr)
    requires c in k.ctls && k.ctls[c].started && !k.ctls[c].cleaned && !k.ctls[c].poolClosed && c in k.names.act
    requires thr.ctl == c && k.names.act[c].Idle?
    ensures ThreadOk(k, Worker(c), Thr(Spawned, c, {})) && ThreadOk(k, Handler(c), thr.(pc := Done(true)))
  {
  }

  lemma AddWorker(s: State, c: Ref, k': Core, thr: Thr)
    requires DomainOk(s) && Exclusive(s.threads) && Handler(c) in s.threads && Worker(c) !in s.threads
    requires c in s.core.ctls
    requires k'.ctls.Keys == s.core.ctls.Keys && k'.ctls[c].started
    requires forall d :: d in s.core.ctls && d != c ==> k'.ctls[d].started == s.core.ctls[d].started
    requires CoreOk(k') && ThreadOk(k', Handler(c), thr) && ThreadOk(k', Worker(c), Thr(Spawned, c, {})) && thr.pc.Done?
    requires forall u :: u in s.threads && u != Handler(c) ==> ThreadOk(k', u, s.threads[u])
    ensures Inv(State(k', s.threads[Handler(c) := thr][Worker(c) := Thr(Spawned, c, {})]))
  {
    hide CoreOk, ThreadOk, GateOf;
    ExclusiveWithWorker(s, c, thr);
    DomainWithWorker(s, c, k', thr);
    hide Exclusive, DomainOk;
  }

  lemma ExclusiveWithWorker(s: State, c: Ref, thr: Thr)
    requires Exclusive(s.threads) && thr.pc.Done?
    ensures Exclusive(s.threads[Handler(c) := thr][Worker(c) := Thr(Spawned, c, {})])
  {
    hide Exclusive;
    ExclusiveKept(s, Handler(c), thr);
    ExclusiveKept(State(s.core, s.threads[Handler(c) := thr]), Worker(c), Thr(Spawned, c, {}));
  }

  lemma DomainWithWorker(s: State, c: Ref, k': Core, thr: Thr)
    requires DomainOk(s) && c in s.core.ctls && k'.ctls.Keys == s.core.ctls.Keys && k'.ctls[c].started
    requires forall d :: d in s.core.ctls && d != c ==> k'.ctls[d].started == s.core.ctls[d].started
    ensures DomainOk(State(k', s.threads[Handler(c) := thr][Worker(c) := Thr(Spawned, c, {})]))
  {
  }

  /** A successful write starts the control and its worker. */
  lemma WriteStarts(s: State, c: Ref)
    requires Inv(s) && Handler(c) in s.threads && s.threads[Handler(c)].ctl == c && Worker(c) !in s.threads
    requires c in s.core.ctls && Current(s.core, c) && CanStart(s.core.ctls[c]) && !s.core.ctls[c].started
    requires forall d :: Uncleaned(s.core, d) ==> s.core.ctls[d].run != s.core.ctls[c].run
    ensures Inv(State(SetCtl(s.core, c, Begun(s.core.ctls[c])),
                      s.threads[Handler(c) := s.threads[Handler(c)].(pc := Done(true))][Worker(c) := Thr(Spawned, c,
                          {})]))
  {
    hide CoreOk, Exclusive, DomainOk, ThreadsOk, ThreadOk, Ok, SafeUpdate;
    var k, thr := s.core, s.threads[Handler(c)];
    var k' := SetCtl(k, c, Begun(k.ctls[c]));
    InvParts(s);
    StartIsSafe(k, c);
    UpdateOk(k, c, Begun(k.ctls[c]));
    StartThreads(s, c);
    hide Inv, Uncleaned;
    NewPcsOk(k', c, thr);
    AddWorker(s, c, k', thr.(pc := Done(true)));
  }

  lemma EndLoginOk(s: State, t: Tid, seen: Seen, ok: bool)
    requires Inv(s) && t in s.threads && s.threads[t].pc == Writing(seen)
    ensures Inv(EndLogin(s, t, ok))
  {
    hide CoreOk, Exclusive, ThreadsOk, ThreadOk, Ok, SafeUpdate;
    var k, thr := s.core, s.threads[t];
    var c := thr.ctl;
    ThreadHolds(s, t);
    InvParts(s);
    WriterFacts(k, t, thr, seen);
    if ok {
      assert t == Handler(c);
      WriteStarts(s, c);
      hide Inv;
    } else {
      hide Inv;
      FailureOk(k, t, thr, Login);
      MoveOnly(s, t, thr.(pc := AfterFailure(t, Login)));
    }
  }

  // ----- Work connections -----

  lemma DeliverStepOk(s: State, t: Tid, seen: Seen)
    requires Inv(s) && t in s.threads && t.Carrier? && s.threads[t].pc == HaveRun(Work, seen)
    ensures Inv(DeliverStep(s, t, seen))
  {
    hide CoreOk, DomainOk, Exclusive, ThreadsOk, ThreadOk, Ok;
    var k, thr := s.core, s.threads[t];
    var c := thr.ctl;
    ThreadHolds(s, t);
    InvParts(s);
    CarrierDone(k, t, thr, false);
    hide Inv;
    if Accepts(k, c, seen) {
      var y := Deliver(k.ctls[c], t.k);
      CtlHolds(k, c);
      DeliverOk(k.ctls[c], t.k);
      RunningPool(k.ctls[c]);
      QuietIsSafe(k, c, y);
      hide Deliver, Forward;
      QuietAllTolerate(s, c, y, {t});
      CarrierDone(SetCtl(k, c, y), t, thr, true);
      UpdateStep(s, t, c, y, thr.(pc := Done(true)));
    } else {
      MoveOnly(s, t, thr.(pc := Done(false)));
    }
  }

  lemma RunningPool(x: Ctl)
    requires Ok(x) && x.state.Running?
    ensures !x.poolClosed
  {
    hide PoolOk;
  }

  lemma CarrierDone(k: Core, t: Tid, thr: Thr, ok: bool)
    requires t.Carrier? && (ThreadOk(k, t, thr) || (thr.ctl in k.ctls && k.ctls[thr.ctl].id > 0))
    ensures ThreadOk(k, t, thr.(pc := Done(ok))) && thr.ctl in k.ctls
  {
    SeenTrivial(k, thr.ctl, Done(ok));
    hide SeenOk, KindOf;
  }

  lemma QuietAllTolerate(s: State, c: Ref, y: Ctl, except: set<Tid>)
    requires c in s.core.ctls && Quiet(s.core.ctls[c], y)
    requires s.core.ctls[c].poolClosed && s.core.ctls[c].pool == [] ==> y.pool == []
    ensures AllTolerate(s, c, y, except)
  {
    hide Quiet, Tolerable;
    forall u | u in s.threads && u !in except ensures Tolerable(c, s.core.ctls[c], y, u, s.threads[u]) {
      QuietTolerable(c, s.core.ctls[c], y, u, s.threads[u]);
    }
  }

  lemma TakeStepOk(s: State, c: Ref)
    requires Inv(s) && c in s.core.ctls && s.core.ctls[c].pool != []
    ensures Inv(s.(core := SetCtl(s.core, c, Take(s.core.ctls[c]))))
  {
    hide CoreOk, DomainOk, Exclusive, ThreadsOk, ThreadOk, Ok;
    InvParts(s);
    CtlHolds(s.core, c);
    TakeOk(s.core.ctls[c]);
    hide Inv, Forward;
    QuietIsSafe(s.core, c, Take(s.core.ctls[c]));
    QuietAllTolerate(s, c, Take(s.core.ctls[c]), {});
    OutsideUpdate(s, c, Take(s.core.ctls[c]));
  }

  // ----- Waiting, notifying, closing -----

  lemma WaitIsSafe(k: Core, c: Ref)
    requires CoreOk(k) && c in k.ctls && BarrierPassed(k, c) && k.ctls[c].id > 0
    ensures SafeUpdate(k, c, k.ctls[c].(waited := true))
  {
    hide CoreOk, BarrierPassed, Uncleaned, BarrierOk;
    CtlHolds(k, c);
    if Current(k, c) { EntryOfRun(k, k.ctls[c].run); }
  }

  lemma PassBarrierOk(s: State, t: Tid)
    requires Inv(s) && t in s.threads && s.threads[t].pc.WaitBarrier? && Unblocked(s, t)
    ensures s.threads[t].ctl in s.core.ctls && Inv(PassBarrier(s, t))
  {
    hide CoreOk, DomainOk, Exclusive, ThreadsOk, Ok;
    var k, thr := s.core, s.threads[t];
    var c := thr.ctl;
    ThreadHolds(s, t);
    InvParts(s);
    assert t == Handler(c);
    var y := k.ctls[c].(waited := true);
    WaitIsSafe(k, c);
    assert ThreadOk(SetCtl(k, c, y), t, thr.(pc := Read(Activate)));
    hide Inv, SafeUpdate, ThreadOk, BarrierPassed;
    UpdateStep(s, t, c, y, thr.(pc := Read(Activate)));
  }

  /** The second markReplaced, from Replaced, finds nothing left to change; what is new is the interrupt. */
  lemma NotifyStepOk(s: State, t: Tid, prev: Ref)
    requires Inv(s) && t in s.threads && s.threads[t].pc == Notify(prev)
    ensures prev in s.core.ctls && NotifyStep(s, t, prev) == Interrupt(Goto(s, t, WaitBarrier), prev)
    ensures Inv(NotifyStep(s, t, prev))
  {
    hide CoreOk, DomainOk, Exclusive, ThreadsOk, Ok;
    var k, thr := s.core, s.threads[t];
    ThreadHolds(s, t);
    InvParts(s);
    assert Close(k.ctls[prev]) == k.ctls[prev];
    assert SetCtl(k, prev, k.ctls[prev]) == k;
    assert ThreadOk(k, t, thr.(pc := WaitBarrier));
    hide Inv, ThreadOk, Close;
    MoveOnly(s, t, thr.(pc := WaitBarrier));
    InterruptOk(Goto(s, t, WaitBarrier), prev);
  }

  lemma OwnAfterClose(k: Core, t: Tid, thr: Thr)
    requires ThreadOk(k, t, thr) && thr.pc.CloseTarget? && thr.ctl in k.ctls && Ok(k.ctls[thr.ctl])
    ensures ThreadOk(SetCtl(k, thr.ctl, Close(k.ctls[thr.ctl])), t,
                     thr.(pc := if t.Closer? then NextTarget else Done(false)))
  {
    CloseOk(k.ctls[thr.ctl]);
    var y := Close(k.ctls[thr.ctl]);
    hide Close, Ok, Forward;
    SeenTrivial(SetCtl(k, thr.ctl, y), thr.ctl, if t.Closer? then NextTarget else Done(false));
    hide SeenOk;
  }

  lemma ClosingFacts(k: Core, t: Tid, thr: Thr)
    requires ThreadOk(k, t, thr) && thr.pc.CloseTarget?
    ensures thr.ctl in k.ctls && (t == Handler(thr.ctl) || (t.Closer? && k.ctls[thr.ctl].id > 0))
    ensures !Current(k, thr.ctl)
  {
    hide SeenOk;
  }

  lemma CloseStepOk(s: State, t: Tid)
    requires Inv(s) && t in s.threads && s.threads[t].pc.CloseTarget? && LifeFree(s, s.threads[t].ctl)
    ensures s.threads[t].ctl in s.core.ctls && Inv(CloseStep(s, t))
  {
    hide CoreOk, DomainOk, Exclusive, ThreadsOk, ThreadOk, Ok, Close, LifeFree;
    var k, thr := s.core, s.threads[t];
    var c := thr.ctl;
    ThreadHolds(s, t);
    InvParts(s);
    ClosingFacts(k, t, thr);
    CtlHolds(k, c);
    CloseIsSafe(k, c);
    CloseAllTolerate(s, c, {t});
    OwnAfterClose(k, t, thr);
    hide Inv, SafeUpdate, AllTolerate;
    var pc := if t.Closer? then NextTarget else Done(false);
    UpdateStep(s, t, c, Close(k.ctls[c]), thr.(pc := pc));
    InterruptOk(Goto(s.(core := SetCtl(k, c, Close(k.ctls[c]))), t, pc), c);
  }

  lemma HeartbeatOk(s: State, c: Ref)
    requires Inv(s) && c in s.core.ctls && s.core.ctls[c].started && LifeFree(s, c)
    ensures Inv(Interrupt(s.(core := SetCtl(s.core, c, Close(s.core.ctls[c]))), c))
  {
    hide CoreOk, DomainOk, Exclusive, ThreadsOk, ThreadOk, Ok, Close, LifeFree;
    InvParts(s);
    CtlHolds(s.core, c);
    OkFacts(s.core.ctls[c]);
    CloseIsSafe(s.core, c);
    CloseAllTolerate(s, c, {});
    hide Inv, SafeUpdate, AllTolerate;
    OutsideUpdate(s, c, Close(s.core.ctls[c]));
    InterruptOk(s.(core := SetCtl(s.core, c, Close(s.core.ctls[c]))), c);
  }

  lemma PickTargetOk(s: State, t: Tid, pick: Ref)
    requires Inv(s) && t in s.threads && s.threads[t].pc.NextTarget?
    requires (s.threads[t].todo != {} ==> pick in s.threads[t].todo)
    ensures Inv(PickTarget(s, t, pick))
  {
    hide CoreOk, DomainOk, Exclusive, ThreadsOk;
    var k, thr := s.core, s.threads[t];
    ThreadHolds(s, t);
    InvParts(s);
    var thr' := if thr.todo == {} then thr.(pc := Done(true)) else Thr(Read(Remove), pick, thr.todo - {pick});
    assert ThreadOk(k, t, thr');
    hide Inv, ThreadOk;
    MoveOnly(s, t, thr');
  }
}

/** The worker's steps, the arrival of new threads, and the invariant over whole runs. */
module WorkerSteps {
  import opened Lifecycle
  import opened Protocol
  import opened CoreInvariant
  import opened CoreSteps
  import opened ThreadInvariant
  import opened StepInvariant
  import opened SoloSteps
  import Registry
  import Names

  // ----- Steps of the worker that change its control -----

  /** The worker's own change of its control, seen by everyone else. */
  lemma WorkerTolerable(c: Ref, x: Ctl, y: Ctl, u: Tid, thr: Thr)
    requires u != Worker(c) && x.started
    requires y == x.(state := y.state, doneCloses := y.doneCloses, poolClosed := y.poolClosed, cleaned := y.cleaned)
    requires Rank(x.state) <= Rank(y.state) && Rank(x.state) >= Rank(Running) && (u == Handler(c) ==> !thr.pc.Writing?)
    ensures Tolerable(c, x, y, u, thr)
  {
  }

  lemma HandlerOfStarted(k: Core, c: Ref, thr: Thr)
    requires ThreadOk(k, Handler(c), thr) && c in k.ctls && k.ctls[c].started
    ensures !thr.pc.Writing?
  {
    hide SeenOk;
  }

  lemma WorkerUpdate(s: State, c: Ref, y: Ctl, pc: Pc)
    requires Inv(s) && Worker(c) in s.threads && SafeUpdate(s.core, c, y) && s.core.ctls[c].started
    requires var x := s.core.ctls[c];
             y == x.(state := y.state, doneCloses := y.doneCloses, poolClosed := y.poolClosed, cleaned := y.cleaned)
             && Rank(x.state) >= Rank(Running)
    requires IsWorkerPc(pc) || pc.Done?
    requires ThreadOk(SetCtl(s.core, c, y), Worker(c), s.threads[Worker(c)].(pc := pc))
    ensures Inv(Goto(s.(core := SetCtl(s.core, c, y)), Worker(c), pc))
  {
    hide CoreOk, DomainOk, Exclusive, ThreadOk, Ok, Tolerable;
    var x := s.core.ctls[c];
    forall u | u in s.threads && u != Worker(c) ensures Tolerable(c, x, y, u, s.threads[u]) {
      if u == Handler(c) { HandlerOfStarted(s.core, c, s.threads[u]); }
      WorkerTolerable(c, x, y, u, s.threads[u]);
    }
    SeenTrivial(s.core, c, pc);
    hide SafeUpdate, Inv, Tolerable;
    UpdateStep(s, Worker(c), c, y, s.threads[Worker(c)].(pc := pc));
  }

  lemma MarkClosingOk(s: State, c: Ref)
    requires Inv(s) && Worker(c) in s.threads && s.threads[Worker(c)].pc.MarkClosing?
    ensures c in s.core.ctls && Inv(WorkerStep(s, c, MarkClosing))
  {
    hide CoreOk, DomainOk, Exclusive, ThreadsOk;
    var k, thr := s.core, s.threads[Worker(c)];
    ThreadHolds(s, Worker(c));
    InvParts(s);
    CtlHolds(k, c);
    var x := k.ctls[c];
    var y := if x.state.Running? then x.(state := Closing) else x;
    ClosingIsSafe(k, c);
    assert ThreadOk(SetCtl(k, c, y), Worker(c), thr.(pc := CloseChan));
    hide Inv, SafeUpdate, ThreadOk, Ok;
    WorkerUpdate(s, c, y, CloseChan);
    InterruptOk(Goto(s.(core := SetCtl(k, c, y)), Worker(c), CloseChan), c);
  }

  lemma ClosingIsSafe(k: Core, c: Ref)
    requires CoreOk(k) && c in k.ctls && k.ctls[c].started && !k.ctls[c].cleaned
    ensures var x := k.ctls[c];
            && SafeUpdate(k, c, if x.state.Running? then x.(state := Closing) else x)
            && Rank(x.state) >= Rank(Running) && !x.state.Closed?
  {
    hide CoreOk, BarrierOk, Uncleaned;
    CtlHolds(k, c);
  }

  lemma CloseChanOk(s: State, c: Ref)
    requires Inv(s) && Worker(c) in s.threads && s.threads[Worker(c)].pc.CloseChan?
    ensures c in s.core.ctls && Inv(WorkerStep(s, c, CloseChan))
  {
    hide CoreOk, DomainOk, Exclusive, ThreadsOk, Ok;
    var k, thr := s.core, s.threads[Worker(c)];
    ThreadHolds(s, Worker(c));
    InvParts(s);
    var y := k.ctls[c].(poolClosed := true);
    ChannelIsSafe(k, c);
    assert ThreadOk(SetCtl(k, c, y), Worker(c), thr.(pc := Draining));
    hide Inv, SafeUpdate, ThreadOk;
    WorkerUpdate(s, c, y, Draining);
  }

  lemma ChannelIsSafe(k: Core, c: Ref)
    requires CoreOk(k) && c in k.ctls && k.ctls[c].state.Closing? && !k.ctls[c].cleaned
    ensures SafeUpdate(k, c, k.ctls[c].(poolClosed := true))
  {
    hide CoreOk, BarrierOk, Uncleaned;
    CtlHolds(k, c);
  }

  lemma CleanedOk(s: State, c: Ref)
    requires Inv(s) && Worker(c) in s.threads && s.threads[Worker(c)].pc.ClosingProxies?
    requires c in s.core.names.act && s.core.names.act[c].Swept?
    ensures c in s.core.ctls && Inv(WorkerStep(s, c, ClosingProxies))
  {
    hide CoreOk, DomainOk, Exclusive, ThreadsOk, Ok;
    var k, thr := s.core, s.threads[Worker(c)];
    ThreadHolds(s, Worker(c));
    InvParts(s);
    var y := k.ctls[c].(cleaned := true);
    CleanIsSafe(k, c);
    assert ThreadOk(SetCtl(k, c, y), Worker(c), thr.(pc := LeaveMetrics));
    hide Inv, SafeUpdate, ThreadOk;
    WorkerUpdate(s, c, y, LeaveMetrics);
  }

  lemma CleanIsSafe(k: Core, c: Ref)
    requires CoreOk(k) && c in k.ctls && k.ctls[c].state.Closing? && k.ctls[c].poolClosed && k.ctls[c].pool == []
    requires c in k.names.act && k.names.act[c].Swept?
    ensures SafeUpdate(k, c, k.ctls[c].(cleaned := true))
  {
    hide CoreOk, BarrierOk, Uncleaned;
    CtlHolds(k, c);
  }

  lemma FinishOk(s: State, c: Ref)
    requires Inv(s) && Worker(c) in s.threads && s.threads[Worker(c)].pc.Finish?
    ensures c in s.core.ctls && Inv(WorkerStep(s, c, Finish))
  {
    hide CoreOk, DomainOk, Exclusive, ThreadsOk, Ok;
    var k, thr := s.core, s.threads[Worker(c)];
    ThreadHolds(s, Worker(c));
    InvParts(s);
    var y := FinishLocked(k.ctls[c]);
    FinishIsSafe(k, c);
    assert ThreadOk(SetCtl(k, c, y), Worker(c), thr.(pc := Done(true)));
    hide Inv, SafeUpdate, ThreadOk;
    WorkerUpdate(s, c, y, Done(true));
  }

  lemma FinishIsSafe(k: Core, c: Ref)
    requires CoreOk(k) && c in k.ctls && k.ctls[c].state.Closing? && k.ctls[c].cleaned && !Current(k, c)
    ensures SafeUpdate(k, c, FinishLocked(k.ctls[c]))
  {
    hide CoreOk, BarrierOk, Uncleaned;
    CtlHolds(k, c);
  }

  lemma DrainOneStepOk(s: State, c: Ref)
    requires Inv(s) && Worker(c) in s.threads && s.threads[Worker(c)].pc.Draining?
    ensures c in s.core.ctls && (s.core.ctls[c].pool != [] ==> Inv(WorkerStep(s, c, Draining)))
  {
    hide CoreOk, DomainOk, Exclusive, ThreadsOk, Ok;
    var k, thr := s.core, s.threads[Worker(c)];
    ThreadHolds(s, Worker(c));
    InvParts(s);
    CtlHolds(k, c);
    if k.ctls[c].pool != [] {
      var y := DrainOne(k.ctls[c]);
      DrainOneOk(k.ctls[c]);
      QuietIsSafe(k, c, y);
      QuietAllTolerate(s, c, y, {});
      hide Inv, SafeUpdate, ThreadOk, Forward;
      OutsideUpdate(s, c, y);
    }
  }

  // ----- Steps that change names, counters or the closed flag -----

  lemma FrameStep(s: State, t: Tid, k': Core, thr: Thr)
    requires Inv(s) && t in s.threads && CoreOk(k') && Undisturbed(s.core, k') && ThreadOk(k', t, thr)
    requires forall c :: c in s.core.names.act && t != Worker(c) ==> k'.names.act[c] == s.core.names.act[c]
    requires LocksOk(s, t, thr.pc)
    ensures Inv(State(k', s.threads[t := thr]))
  {
    hide CoreOk, DomainOk, Exclusive, ThreadOk, LocksOk;
    forall u | u in s.threads && u != t ensures ThreadOk(k', u, s.threads[u]) {
      UndisturbedKeepsThread(s.core, k', u, s.threads[u]);
    }
    hide Inv;
    Assemble(s, t, k', thr);
  }

  lemma CounterStepOk(s: State, c: Ref, pc: Pc)
    requires Inv(s) && Worker(c) in s.threads && s.threads[Worker(c)].pc == pc && (pc.Spawned? || pc.LeaveMetrics?)
    ensures c in s.core.ctls && Inv(WorkerStep(s, c, pc))
  {
    hide CoreOk, DomainOk, Exclusive, ThreadsOk, Ok, Names.Inv;
    var k, t := s.core, Worker(c);
    ThreadHolds(s, t);
    InvParts(s);
    NamesFacts(k);
    hide Inv;
    var k' := if pc.Spawned? then k.(newClients := k.newClients + 1) else k.(closedClients := k.closedClients + 1);
    var pc' := if pc.Spawned? then Serving else Read(Remove);
    assert ThreadOk(k', t, s.threads[t].(pc := pc'));
    hide ThreadOk;
    FrameOk(k, k');
    SameEntriesUndisturbed(k, k');
    hide Undisturbed;
    FrameStep(s, t, k', s.threads[t].(pc := pc'));
  }

  lemma StartSweepOk(s: State, c: Ref)
    requires Inv(s) && Worker(c) in s.threads && s.threads[Worker(c)].pc.Draining?
    ensures c in s.core.ctls && (s.core.ctls[c].pool == [] ==> Inv(WorkerStep(s, c, Draining)))
  {
    hide CoreOk, DomainOk, Exclusive, ThreadsOk, Ok, Names.Inv;
    var k, t := s.core, Worker(c);
    ThreadHolds(s, t);
    InvParts(s);
    NamesFacts(k);
    hide Inv;
    if k.ctls[c].pool == [] {
      var k' := k.(names := Names.StartSweep(k.names, c));
      Names.StartSweepKeepsInv(k.names, c);
      assert ThreadOk(k', t, s.threads[t].(pc := ClosingProxies));
      hide ThreadOk;
      FrameOk(k, k');
      SameEntriesUndisturbed(k, k');
      hide Undisturbed;
      FrameStep(s, t, k', s.threads[t].(pc := ClosingProxies));
    }
  }

  lemma EndServingOk(s: State, c: Ref)
    requires Inv(s) && Worker(c) in s.threads && s.threads[Worker(c)].pc.Serving?
    requires c in s.core.names.act && s.core.names.act[c].Idle?
    ensures c in s.core.ctls && Inv(WorkerStep(s, c, Serving))
  {
    hide CoreOk, DomainOk, Exclusive, ThreadsOk, Ok;
    var thr := s.threads[Worker(c)];
    ThreadHolds(s, Worker(c));
    assert ThreadOk(s.core, Worker(c), thr.(pc := MarkClosing));
    hide ThreadOk;
    MoveOnly(s, Worker(c), thr.(pc := MarkClosing));
  }

  lemma WorkerStepOk(s: State, c: Ref, pick: Ref)
    requires Inv(s) && Worker(c) in s.threads && IsWorkerPc(s.threads[Worker(c)].pc)
    requires s.threads[Worker(c)].ctl == c && Ready(s, Worker(c), pick)
    ensures Inv(WorkerStep(s, c, s.threads[Worker(c)].pc))
  {
    hide Inv, WorkerStep;
    match s.threads[Worker(c)].pc {
      case Spawned => CounterStepOk(s, c, Spawned);
      case Serving => EndServingOk(s, c);
      case MarkClosing => MarkClosingOk(s, c);
      case CloseChan => CloseChanOk(s, c);
      case Draining => DrainOneStepOk(s, c); StartSweepOk(s, c);
      case ClosingProxies => CleanedOk(s, c);
      case LeaveMetrics => CounterStepOk(s, c, LeaveMetrics);
      case Finish => FinishOk(s, c);
    }
  }

  // ----- Moves of the proxy handlers -----

  /** The activity of the moving control stays on its side of the sweep. */
  lemma MoveKeepsSide(n: Names.Names, c: Ref, move: Names.Move)
    requires Names.Enabled(n, c, move)
    ensures Names.Reading(n.act[c]) && !move.Sweep? ==> Names.Reading(Names.Next(n, c, move).act[c])
    ensures Names.InSweep(n.act[c]) ==> Names.InSweep(Names.Next(n, c, move).act[c])
  {
  }

  lemma NameMoveWorker(k: Core, k': Core, c: Ref, thr: Thr)
    requires Undisturbed(k, k') && ThreadOk(k, Worker(c), thr) && (thr.pc.Serving? || thr.pc.ClosingProxies?)
    requires thr.pc.Serving? ==> c in k'.names.act && Names.Reading(k'.names.act[c])
    requires thr.pc.ClosingProxies? ==> c in k'.names.act && Names.InSweep(k'.names.act[c])
    ensures ThreadOk(k', Worker(c), thr)
  {
    UndisturbedKeepsSeen(k, k', c, thr.pc);
    hide SeenOk, KindOf, Names.Reading, Names.InSweep;
  }

  lemma NameMoveThreads(s: State, c: Ref, move: Names.Move, u: Tid)
    requires Inv(s) && MoveAllowed(s, c, move) && u in s.threads
    ensures ThreadOk(s.core.(names := Names.Next(s.core.names, c, move)), u, s.threads[u])
  {
    hide CoreOk, DomainOk, Exclusive, Ok, Names.Inv, Names.Next, ThreadOk, Names.Reading, Names.InSweep;
    var k := s.core;
    var k' := k.(names := Names.Next(k.names, c, move));
    Names.MoveIsLocal(k.names, c, move);
    MoveKeepsSide(k.names, c, move);
    assert Undisturbed(k, k');
    if u == Worker(c) {
      ServingSide(k, c, s.threads[u]);
      NameMoveWorker(k, k', c, s.threads[u]);
    } else {
      UndisturbedKeepsThread(k, k', u, s.threads[u]);
    }
  }

  lemma ServingSide(k: Core, c: Ref, thr: Thr)
    requires ThreadOk(k, Worker(c), thr)
    ensures thr.pc.Serving? ==> c in k.names.act && Names.Reading(k.names.act[c])
    ensures thr.pc.ClosingProxies? ==> c in k.names.act && Names.InSweep(k.names.act[c])
  {
    hide SeenOk, KindOf, Names.Reading, Names.InSweep;
  }

  lemma NameMoveOk(s: State, c: Ref, move: Names.Move)
    requires Inv(s) && MoveAllowed(s, c, move)
    ensures Inv(s.(core := s.core.(names := Names.Next(s.core.names, c, move))))
  {
    hide CoreOk, Exclusive, Ok, Names.Inv, ThreadOk;
    var k := s.core;
    var k' := k.(names := Names.Next(k.names, c, move));
    InvParts(s);
    NamesFacts(k);
    Names.MoveKeepsInv(k.names, c, move);
    Names.MoveIsLocal(k.names, c, move);
    ServingIsUncleaned(s, c, move);
    forall u | u in s.threads ensures ThreadOk(k', u, s.threads[u]) {
      NameMoveThreads(s, c, move, u);
    }
    hide Names.Next, ThreadsOk;
    FrameOk(k, k');
  }

  lemma ServingIsUncleaned(s: State, c: Ref, move: Names.Move)
    requires Inv(s) && MoveAllowed(s, c, move)
    ensures c in s.core.ctls && !s.core.ctls[c].cleaned
  {
    hide CoreOk, DomainOk, Exclusive, Ok, Names.Inv;
    assert ThreadOk(s.core, Worker(c), s.threads[Worker(c)]);
    hide ThreadsOk;
  }

  // ----- Arrivals -----

  lemma ArrivalOk(s: State, t: Tid, k': Core, thr: Thr)
    requires t !in s.threads && Exclusive(s.threads) && CoreOk(k') && ThreadOk(k', t, thr)
    requires forall u :: u in s.threads ==> ThreadOk(k', u, s.threads[u])
    requires GateOf(thr.pc).None? && !thr.pc.InMgr?
    requires DomainOk(State(k', s.threads[t := thr]))
    ensures Inv(State(k', s.threads[t := thr]))
  {
    hide CoreOk, ThreadOk, DomainOk;
    ExclusiveKept(s, t, thr);
    hide Exclusive, GateOf;
  }

  lemma ExtendKeepsThread(k: Core, k': Core, c: Ref, u: Tid, thr: Thr)
    requires c !in k.ctls && c in k'.ctls && k'.ctls == k.ctls[c := k'.ctls[c]] && k'.entries == k.entries
    requires k'.lastId == k.lastId && k'.closed == k.closed && c !in k.names.act
    requires c in k'.names.act && k'.names.act == k.names.act[c := k'.names.act[c]]
    requires ThreadOk(k, u, thr)
    ensures ThreadOk(k', u, thr)
  {
    if thr.ctl in k.ctls {
      assert RunOf(k', thr.ctl) == RunOf(k, thr.ctl) && Current(k', thr.ctl) == Current(k, thr.ctl);
      assert SeenOk(k', thr.ctl, thr.pc);
    } else {
      SeenTrivial(k', thr.ctl, thr.pc);
    }
    hide SeenOk, KindOf;
    match u {
      case Handler(d) =>
      case Worker(d) =>
      case Closer(_) =>
      case Carrier(_) =>
    }
  }

  lemma NewLoginStepOk(s: State, c: Ref, run: string, login: Registry.Login, poolCount: nat)
    requires Inv(s) && Enabled(s, NewLogin(c, run, login, poolCount))
    ensures Inv(Apply(s, NewLogin(c, run, login, poolCount)))
  {
    hide CoreOk, Exclusive, ThreadOk, Names.Inv;
    var k := s.core;
    var k' := k.(ctls := k.ctls[c := NewControl(run, login, poolCount)], names := Names.NewOwner(k.names, c));
    var thr := Thr(Read(Add), c, {});
    InvParts(s);
    NewLoginOk(k, c, run, login, poolCount);
    forall u | u in s.threads ensures ThreadOk(k', u, s.threads[u]) {
      ExtendKeepsThread(k, k', c, u, s.threads[u]);
    }
    NewHandlerOk(k', c);
    ArrivalOk(s, Handler(c), k', thr);
  }

  lemma NewHandlerOk(k: Core, c: Ref)
    requires c in k.ctls && k.ctls[c].state.Created? && !k.ctls[c].started
    ensures ThreadOk(k, Handler(c), Thr(Read(Add), c, {}))
  {
  }

  lemma NewWorkConnOk(s: State, n: nat, c: Ref)
    requires Inv(s) && Carrier(n) !in s.threads && c in s.core.ctls && s.core.ctls[c].state.Running?
    ensures Inv(s.(threads := s.threads[Carrier(n) := Thr(Read(Work), c, {})]))
  {
    hide CoreOk, Exclusive, Ok;
    var thr := Thr(Read(Work), c, {});
    InvParts(s);
    CtlHolds(s.core, c);
    OkFacts(s.core.ctls[c]);
    assert ThreadOk(s.core, Carrier(n), thr);
    hide ThreadOk;
    ArrivalOk(s, Carrier(n), s.core, thr);
  }

  lemma CloseManagerOk(s: State, n: nat)
    requires Inv(s) && Closer(n) !in s.threads
    ensures Inv(State(s.core.(closed := true), s.threads[Closer(n) := NewCloser(s.core)]))
  {
    hide CoreOk, Exclusive, ThreadOk, Names.Inv, NewCloser;
    var k := s.core;
    var k' := k.(closed := true);
    InvParts(s);
    NamesFacts(k);
    FrameOk(k, k');
    SameEntriesUndisturbed(k, k');
    hide Undisturbed;
    forall u | u in s.threads ensures ThreadOk(k', u, s.threads[u]) {
      UndisturbedKeepsThread(k, k', u, s.threads[u]);
    }
    NewCloserOk(k, k', n);
    ArrivalOk(s, Closer(n), k', NewCloser(k));
  }

  lemma NewCloserOk(k: Core, k': Core, n: nat)
    requires CoreOk(k) && k' == k.(closed := true)
    ensures ThreadOk(k', Closer(n), NewCloser(k)) && NewCloser(k).pc.NextTarget?
  {
    hide CoreOk, Ok;
    forall r | r in k.entries ensures k.entries[r].ctl in k.ctls && k.ctls[k.entries[r].ctl].id > 0 {
      EntryOfRun(k, r);
      CtlHolds(k, k.entries[r].ctl);
      OkFacts(k.ctls[k.entries[r].ctl]);
    }
  }
}

/** Conservation of work connections and of the client counters, over every run. */
module WorkConns {
  import opened Lifecycle
  import opened Protocol
  import opened CoreInvariant
  import opened ThreadInvariant
  import opened StepInvariant
  import opened Runs
  import opened Effects
  import opened Handoff
  import Registry

  /** The connection was accepted into the pool of `c`. */
  predicate AcceptedBy(s: State, n: Conn, c: Ref) {
    Carrier(n) in s.threads && s.threads[Carrier(n)].ctl == c && s.threads[Carrier(n)].pc == Done(true)
  }

  /** A pool's history counts every connection that was accepted into it, once. */
  ghost predicate AcceptedOnce(s: State, c: Ref, n: Conn)
    requires c in s.core.ctls
  {
    s.core.ctls[c].accepted[n] == if AcceptedBy(s, n, c) then 1 else 0
  }

  ghost predicate AcceptedOk(s: State) {
    forall c, n :: c in s.core.ctls ==> AcceptedOnce(s, c, n)
  }

  /** Where a carrier goes in its next step. */
  lemma CarrierStep(s: State, a: Action, n: Conn)
    requires Inv(s) && Enabled(s, a) && a.Step? && a.t == Carrier(n)
    ensures var c := s.threads[a.t].ctl;
            && c in s.core.ctls && a.t in Apply(s, a).threads && Apply(s, a).threads[a.t].ctl == c
            && s.threads[a.t].pc != Done(true)
            && (Apply(s, a).threads[a.t].pc == Done(true) <==> Delivers(s, a, c, n))
            && Apply(s, a).core.ctls == (if Delivers(s, a, c, n) then s.core.ctls[c := Deliver(s.core.ctls[c],
                n)] else s.core.ctls)
  {
    hide CoreOk, DomainOk, Exclusive, ThreadsOk, LifeFree, GateFree, MgrFree;
    ThreadHolds(s, a.t);
    hide Inv, SeenOk;
    KindOfCarrier(s.core, s.threads[a.t]);
  }

  lemma KindOfCarrier(k: Core, thr: Thr)
    requires CarrierOk(k, thr) && !thr.pc.Done?
    ensures (thr.pc.Read? || thr.pc.WantGate? || thr.pc.Recheck? || thr.pc.WantMgr? || thr.pc.InMgr? || thr.pc.HaveRun?)
            && thr.pc.kind.Work?
  {
  }

  lemma CarrierKeepsCount(s: State, a: Action, m: Conn, c: Ref, n: Conn)
    requires Inv(s) && Enabled(s, a) && a.Step? && a.t == Carrier(m) && c in s.core.ctls && AcceptedOnce(s, c, n)
    ensures c in Apply(s, a).core.ctls && AcceptedOnce(Apply(s, a), c, n)
  {
    hide Inv, Enabled, Apply;
    CarrierStep(s, a, m);
    if n != m { CarrierStays(s, a, n); }
    hide Delivers;
  }

  lemma CarrierStays(s: State, a: Action, n: Conn)
    requires Inv(s) && Enabled(s, a) && (a.Step? ==> a.t != Carrier(n))
    ensures Carrier(n) in s.threads ==>
              Carrier(n) in Apply(s, a).threads && Apply(s, a).threads[Carrier(n)] == s.threads[Carrier(n)]
    ensures Carrier(n) !in s.threads && Carrier(n) in Apply(s, a).threads ==> !Apply(s, a).threads[Carrier(n)].pc.Done?
  {
    if Carrier(n) in s.threads {
      hide Enabled, Apply, Inv;
      ThreadsStay(s, a, Carrier(n));
    } else {
      hide LifeFree, GateFree, MgrFree, Close, Take, NewCloser, Inv, Registry.Registered, Registry.MarkedOffline,
        Registry.Conflicts, FirstAdd, ReplacingAdd;
    }
  }

  lemma OthersKeepCount(s: State, a: Action, c: Ref, n: Conn)
    requires Inv(s) && Enabled(s, a) && !(a.Step? && a.t.Carrier?) && c in s.core.ctls && AcceptedOnce(s, c, n)
    ensures c in Apply(s, a).core.ctls && AcceptedOnce(Apply(s, a), c, n)
  {
    hide Inv, Enabled, Apply, Forward;
    ActionSteps(s, a, c);
    CarrierStays(s, a, n);
  }

  lemma NewControlCount(s: State, a: Action, c: Ref, n: Conn)
    requires Inv(s) && Enabled(s, a) && c !in s.core.ctls && c in Apply(s, a).core.ctls
    ensures AcceptedOnce(Apply(s, a), c, n)
  {
    hide Inv, Enabled, Apply;
    NewcomerIsEmpty(s, a, c);
    if Carrier(n) in s.threads { CarrierTarget(s, n); }
    CarrierStays(s, a, n);
  }

  lemma CarrierTarget(s: State, n: Conn)
    requires Inv(s) && Carrier(n) in s.threads
    ensures s.threads[Carrier(n)].ctl in s.core.ctls
  {
    hide CoreOk, DomainOk, Exclusive, ThreadsOk;
    ThreadHolds(s, Carrier(n));
    hide Inv, SeenOk;
  }

  lemma NewcomerIsEmpty(s: State, a: Action, c: Ref)
    requires Inv(s) && Enabled(s, a) && c !in s.core.ctls && c in Apply(s, a).core.ctls
    ensures a.NewLogin? && Apply(s, a).core.ctls[c].accepted == multiset{}
  {
    hide Inv, LifeFree, GateFree, MgrFree, Close, Take, NewCloser, Registry.Registered, Registry.MarkedOffline,
        Registry.Conflicts;
    if a.Step? {
      StepKeepsControls(s, a);
    }
  }

  lemma StepKeepsControls(s: State, a: Action)
    requires Inv(s) && Enabled(s, a) && a.Step?
    ensures Apply(s, a).core.ctls.Keys == s.core.ctls.Keys
  {
    hide Inv, Enabled, Apply;
    StepThread(s, a);
    if s.threads[a.t].pc.InMgr? { CommitKeepsControls(s, a); } else { PlainKeepsControls(s, a); }
  }

  lemma CommitKeepsControls(s: State, a: Action)
    requires Enabled(s, a) && a.Step? && s.threads[a.t].pc.InMgr?
    ensures Apply(s, a).core.ctls.Keys == s.core.ctls.Keys
  {
    hide LifeFree, GateFree, MgrFree, Close, Registry.Registered, Registry.MarkedOffline, Registry.Conflicts, Admit,
      ReplacedBarrier, AfterFailure, Unblocked, ActivationOpen;
  }

  lemma PlainKeepsControls(s: State, a: Action)
    requires Enabled(s, a) && a.Step? && !s.threads[a.t].pc.InMgr?
    ensures Apply(s, a).core.ctls.Keys == s.core.ctls.Keys
  {
    hide LifeFree, GateFree, MgrFree, Close, AfterRead, AfterRecheck, AfterFailure, Unblocked, CommitAdd,
        CommitActivate,
      CommitRemove, WorkerStep, Deliver, Start;
    if IsWorkerPc(s.threads[a.t].pc) { WorkerKeepsControls(s, s.threads[a.t].ctl, s.threads[a.t].pc); }
  }

  lemma WorkerKeepsControls(s: State, c: Ref, pc: Pc)
    requires Worker(c) in s.threads && c in s.core.ctls
    ensures WorkerStep(s, c, pc).core.ctls.Keys == s.core.ctls.Keys
  {
    hide DrainOne, FinishLocked, Names.StartSweep;
  }

  /** Every action keeps the count. */
  lemma ActionKeepsCount(s: State, a: Action)
    requires Inv(s) && Enabled(s, a) && AcceptedOk(s)
    ensures AcceptedOk(Apply(s, a))
  {
    hide Inv, Enabled, Apply, AcceptedOnce;
    var s' := Apply(s, a);
    forall c, n | c in s'.core.ctls ensures AcceptedOnce(s', c, n) {
      if c !in s.core.ctls { NewControlCount(s, a, c, n); }
      else if a.Step? && a.t.Carrier? { CarrierKeepsCount(s, a, a.t.k, c, n); }
      else { OthersKeepCount(s, a, c, n); }
    }
  }

  lemma {:induction false} RunKeepsCount(run: seq<State>, i: nat)
    requires IsRun(run) && i < |run|
    ensures AcceptedOk(run[i])
    decreases i
  {
    hide Inv, Enabled, Apply, AcceptedOk, Next, Init;
    if i > 0 {
      RunKeepsCount(run, i - 1);
      var a := ActionOf(run, i - 1);
      ActionKeepsCount(run[i - 1], a);
    } else {
      NothingAcceptedYet(run[0]);
    }
  }

  lemma NothingAcceptedYet(s: State)
    requires Init(s)
    ensures AcceptedOk(s)
  {
    hide AcceptedOnce;
  }

  /** Conservation: an accepted connection is, once, in its control's pool, handed
      out, or closed by the drain, and it is nowhere at any other control; a pool
      never exceeds its capacity. */
  lemma WorkConnConservation(run: seq<State>, i: nat, n: Conn, c: Ref, d: Ref)
    requires IsRun(run) && i < |run| && c in run[i].core.ctls && d in run[i].core.ctls
    requires AcceptedBy(run[i], n, c)
    ensures var y := run[i].core.ctls[d];
            multiset(y.pool)[n] + y.taken[n] + y.drained[n] == if d == c then 1 else 0
    ensures |run[i].core.ctls[d].pool| <= run[i].core.ctls[d].poolCount + WORK_CONN_POOL_CAPACITY_OFFSET
  {
    hide IsRun, Inv, CoreOk, BarrierOk;
    RunOk(run, i);
    RunKeepsCount(run, i);
    InvParts(run[i]);
    CtlHolds(run[i].core, d);
    assert AcceptedOnce(run[i], d, n);
    hide AcceptedOk;
  }

  /** A control whose clean-up is over has handed out or closed every connection it accepted. */
  lemma NothingLeftInPool(run: seq<State>, i: nat, c: Ref)
    requires IsRun(run) && i < |run| && c in run[i].core.ctls && run[i].core.ctls[c].cleaned
    ensures run[i].core.ctls[c].accepted == run[i].core.ctls[c].taken + run[i].core.ctls[c].drained
  {
    hide IsRun, Inv, CoreOk, BarrierOk;
    RunOk(run, i);
    InvParts(run[i]);
    CtlHolds(run[i].core, c);
  }

  /** No run sends on a closed pool channel, and a send goes to the current running generation. */
  lemma NoSendOnClosedPool(s: State, a: Action, c: Ref, n: Conn)
    requires Reachable(s) && Enabled(s, a) && Delivers(s, a, c, n)
    ensures !s.core.ctls[c].poolClosed && s.core.ctls[c].state.Running? && Current(s.core, c)
    ensures Apply(s, a).core.ctls[c].pool == s.core.ctls[c].pool + [n]
  {
    hide Reachable, CoreOk, DomainOk, Exclusive, ThreadsOk;
    ReachableOk(s);
    ThreadHolds(s, a.t);
    InvParts(s);
    CtlHolds(s.core, c);
    hide Inv, BarrierOk, PoolOk, LifeFree;
  }

  // ----- NewClient and CloseClient -----

  /** The worker is between its NewClient and its CloseClient. */
  predicate Counted(pc: Pc) {
    pc.Serving? || pc.MarkClosing? || pc.CloseChan? || pc.Draining? || pc.ClosingProxies? || pc.LeaveMetrics?
  }

  ghost function InService(s: State): set<Ref> {
    set c | c in s.core.ctls && Worker(c) in s.threads && Counted(s.threads[Worker(c)].pc)
  }

  ghost predicate MetricsOk(s: State) {
    s.core.newClients == s.core.closedClients + |InService(s)|
  }

  /** What a worker's step does to the counters and to the set of counted workers. */
  lemma WorkerMetrics(s: State, a: Action, c: Ref)
    requires Inv(s) && Enabled(s, a) && a.Step? && a.t == Worker(c)
    ensures var k, k', pc := s.core, Apply(s, a).core, s.threads[a.t].pc;
            && c in k.ctls && a.t in Apply(s, a).threads
            && k'.newClients == k.newClients + (if pc.Spawned? then 1 else 0)
            && k'.closedClients == k.closedClients + (if pc.LeaveMetrics? then 1 else 0)
            && (Counted(Apply(s, a).threads[a.t].pc) <==> pc.Spawned? || (Counted(pc) && !pc.LeaveMetrics?))
  {
    hide CoreOk, DomainOk, Exclusive, ThreadsOk, LifeFree, GateFree, MgrFree, Close, Registry.MarkedOffline;
    ThreadHolds(s, a.t);
    hide Inv, SeenOk;
    KindOfWorker(s.core, c, s.threads[a.t].pc);
    hide ThreadOk;
  }

  lemma KindOfWorker(k: Core, c: Ref, pc: Pc)
    requires WorkerOk(k, c, pc)
    ensures IsWorkerPc(pc) || pc.Done? ||
            ((pc.Read? || pc.WantGate? || pc.Recheck? || pc.WantMgr? || pc.InMgr? || pc.HaveRun?) && pc.kind.Remove?)
  {
  }

  lemma OtherMetrics(s: State, a: Action)
    requires Inv(s) && Enabled(s, a) && !(a.Step? && a.t.Worker?)
    ensures Apply(s, a).core.newClients == s.core.newClients && Apply(s, a).core.closedClients == s.core.closedClients
  {
    hide CoreOk, DomainOk, Exclusive, ThreadsOk, ThreadOk, LifeFree, GateFree, MgrFree, Close, Registry.Registered,
      Registry.MarkedOffline, Registry.Conflicts, ReplacedBarrier, Inv;
  }

  lemma WorkerArrives(s: State, a: Action, c: Ref)
    requires Inv(s) && Enabled(s, a) && Worker(c) !in s.threads && Worker(c) in Apply(s, a).threads
    ensures !Counted(Apply(s, a).threads[Worker(c)].pc)
  {
    hide CoreOk, DomainOk, Exclusive, ThreadsOk, ThreadOk, LifeFree, GateFree, MgrFree, Close, Registry.Registered,
      Registry.MarkedOffline, Registry.Conflicts, ReplacedBarrier, Inv;
  }

  /** Membership of one control in the set after an action. */
  ghost predicate CountedAfter(s: State, a: Action, c: Ref) {
    if a.Step? && a.t == Worker(c) && a.t in s.threads then
      s.threads[a.t].pc.Spawned? || (c in InService(s) && !s.threads[a.t].pc.LeaveMetrics?)
    else c in InService(s)
  }

  lemma ServiceOf(s: State, a: Action, c: Ref)
    requires Inv(s) && Enabled(s, a)
    ensures c in InService(Apply(s, a)) <==> CountedAfter(s, a, c)
  {
    hide Inv, Enabled, Apply, Counted, Effect;
    if a.Step? { StepThread(s, a); }
    if a.Step? && a.t == Worker(c) {
      WorkerMetrics(s, a, c);
      ActionSteps(s, a, c);
    } else if Worker(c) in s.threads {
      ThreadsStay(s, a, Worker(c));
      WorkerHasControl(s, c);
      ActionSteps(s, a, c);
    } else if Worker(c) in Apply(s, a).threads {
      WorkerArrives(s, a, c);
    }
  }

  lemma WorkerHasControl(s: State, c: Ref)
    requires Inv(s) && Worker(c) in s.threads
    ensures c in s.core.ctls
  {
    hide CoreOk, Exclusive, ThreadsOk;
  }

  lemma ActionKeepsMetrics(s: State, a: Action)
    requires Inv(s) && Enabled(s, a) && MetricsOk(s)
    ensures MetricsOk(Apply(s, a))
  {
    hide Inv, Enabled, Apply, InService;
    var s' := Apply(s, a);
    if a.Step? { StepThread(s, a); }
    forall c ensures c in InService(s') <==> CountedAfter(s, a, c) {
      ServiceOf(s, a, c);
    }
    if a.Step? && a.t.Worker? {
      var c := a.t.c;
      WorkerMetrics(s, a, c);
      SpawnedIsNotCounted(s, c);
      if s.threads[a.t].pc.Spawned? {
        assert InService(s') == InService(s) + {c};
      } else if s.threads[a.t].pc.LeaveMetrics? {
        assert InService(s') == InService(s) - {c};
      } else {
        assert InService(s') == InService(s);
      }
    } else {
      OtherMetrics(s, a);
      assert InService(s') == InService(s);
    }
  }

  lemma SpawnedIsNotCounted(s: State, c: Ref)
    requires Inv(s) && Worker(c) in s.threads
    ensures s.threads[Worker(c)].pc.Spawned? ==> c !in InService(s)
    ensures s.threads[Worker(c)].pc.LeaveMetrics? ==> c in InService(s)
  {
    WorkerHasControl(s, c);
    hide Inv;
  }

  /** NewClient minus CloseClient is, in every state, the number of workers between the two calls. */
  lemma {:induction false} ClientMetrics(run: seq<State>, i: nat)
    requires IsRun(run) && i < |run|
    ensures run[i].core.newClients - run[i].core.closedClients == |InService(run[i])|
    decreases i
  {
    hide Inv, Enabled, Apply, InService, Next, Init;
    if i > 0 {
      ClientMetrics(run, i - 1);
      var a := ActionOf(run, i - 1);
      ActionKeepsMetrics(run[i - 1], a);
    } else {
      NoClientsYet(run[0]);
    }
  }

  lemma NoClientsYet(s: State)
    requires Init(s)
    ensures s.core.newClients - s.core.closedClients == |InService(s)|
  {
    assert InService(s) == {};
  }
}

/** The promises of the control-generation protocol, over every run. */
module Handoff {
  import opened Options
  import opened Lifecycle
  import opened Protocol
  import opened CoreInvariant
  import opened CoreSteps
  import opened ThreadInvariant
  import opened StepInvariant
  import opened CommitSteps
  import opened SoloSteps
  import opened Runs
  import opened Effects
  import Registry
  import Names

  /** The action behind a step of a run. */
  lemma ActionOf(run: seq<State>, i: nat) returns (a: Action)
    requires IsRun(run) && i + 1 < |run|
    ensures Inv(run[i]) && Enabled(run[i], a) && run[i + 1] == Apply(run[i], a)
  {
    hide Inv, Init, Enabled, Apply;
    RunOk(run, i);
    assert Next(run[i], run[i + 1]);
    a :| Enabled(run[i], a) && run[i + 1] == Apply(run[i], a);
  }

  // ----- Handoff safety -----

  /** The worker of `d` left nothing behind: its pool is closed and empty and it
      owns no name in the proxy manager or the NAT-hole table. */
  predicate LeftNothing(k: Core, d: Ref) {
    && d in k.ctls && k.ctls[d].cleaned && k.ctls[d].poolClosed && k.ctls[d].pool == []
    && (forall n :: n in k.names.pxys ==> k.names.pxys[n].owner != d)
    && (forall n :: n in k.names.clientCfgs ==> k.names.clientCfgs[n].owner != d)
  }

  lemma CleanedLeftNothing(k: Core, d: Ref)
    requires CoreOk(k) && d in k.ctls && k.ctls[d].cleaned
    ensures LeftNothing(k, d)
  {
    hide CoreOk, Names.Inv, PoolOk;
    CtlHolds(k, d);
    assert Names.Inv(k.names) by { NamesInvOf(k); }
    forall n | n in k.names.pxys ensures k.names.pxys[n].owner != d { Names.SweptOwnsNothing(k.names, d, n); }
    forall n | n in k.names.clientCfgs ensures k.names.clientCfgs[n].owner != d {
      Names.SweptOwnsNothing(k.names, d, n);
    }
    hide BarrierOk;
  }

  lemma NamesInvOf(k: Core)
    requires CoreOk(k)
    ensures Names.Inv(k.names)
  {
    hide Names.Inv, CtlsOk, IdsDistinct, EntriesOk, RegistryOk, HandoffOk;
  }

  /** While a control that has waited is current, no other control of its run is uncleaned. */
  lemma CurrentIsAlone(k: Core, c: Ref, d: Ref)
    requires CoreOk(k) && Current(k, c) && k.ctls[c].waited && Uncleaned(k, d) && k.ctls[d].run == k.ctls[c].run
    ensures d == c
  {
    hide CtlsOk, IdsDistinct, EntriesOk, RegistryOk, Names.Inv;
    assert Covered(k, d);
    hide HandoffOk;
  }

  lemma ActivatesFacts(s: State, a: Action, c: Ref)
    requires Inv(s) && Activates(s, a, c)
    ensures Current(s.core, c) && s.core.ctls[c].waited
  {
    hide CoreOk, DomainOk, Exclusive, ThreadsOk, ThreadOk;
    ThreadHolds(s, a.t);
    InvParts(s);
    ActivatorFacts(s.core, a.t, s.threads[a.t], s.threads[a.t].pc.maybe.value);
    hide Inv;
  }

  /** Handoff safety: when a control becomes activated, every other generation of
      its run that ever started a worker has drained its pool and closed its
      proxies, however many pending generations were replaced in between. */
  lemma HandoffSafety(run: seq<State>, i: nat, c: Ref, d: Ref)
    requires IsRun(run) && i + 1 < |run|
    requires var k := run[i].core;
             c in k.ctls && d in k.ctls && c != d && k.ctls[d].run == k.ctls[c].run && k.ctls[d].started
             && !k.ctls[c].activated
    requires c in run[i + 1].core.ctls && run[i + 1].core.ctls[c].activated
    ensures LeftNothing(run[i].core, d)
  {
    hide Inv, Enabled, Apply, CoreOk, LeftNothing, IsRun;
    var s := run[i];
    var a := ActionOf(run, i);
    ActionSteps(s, a, c);
    assert Activates(s, a, c);
    ActivatesFacts(s, a, c);
    InvParts(s);
    if Uncleaned(s.core, d) { CurrentIsAlone(s.core, c, d); }
    CleanedLeftNothing(s.core, d);
  }

  /** At most one control of a run has a worker that is not cleaned up. */
  lemma OneUncleanedWorker(run: seq<State>, i: nat, d: Ref, d': Ref)
    requires IsRun(run) && i < |run| && Uncleaned(run[i].core, d) && Uncleaned(run[i].core, d')
    requires run[i].core.ctls[d].run == run[i].core.ctls[d'].run
    ensures d == d'
  {
    hide IsRun, CtlsOk, IdsDistinct, EntriesOk, RegistryOk, Names.Inv;
    assert Inv(run[i]) by { hide *; RunOk(run, i); }
    hide ThreadsOk, DomainOk, Exclusive, Covered;
  }

  // ----- No ghost clients -----

  /** Whatever the registry shows online belongs to a run the manager holds, under the same generation. */
  lemma NoGhostClients(run: seq<State>, i: nat, r: string)
    requires IsRun(run) && i < |run|
    ensures var k := run[i].core;
            Registry.OnlineAs(k.reg, r).Some? ==>
              r in k.entries && k.entries[r].online && Registry.OnlineAs(k.reg, r) == Some(k.entries[r].onlineId)
  {
    hide IsRun, CtlsOk, IdsDistinct, EntriesOk, HandoffOk, Names.Inv, Registry.Inv, Registry.OnlineAs;
    assert Inv(run[i]) by { hide *; RunOk(run, i); }
    hide ThreadsOk, DomainOk, Exclusive;
  }

  /** The section that removes the current generation, activated or not, takes its
      run offline and leaves every other run's registration alone. */
  lemma RemovalTakesOffline(s: State, t: Tid, seen: Seen, now: int)
    requires Reachable(s) && t in s.threads && s.threads[t].pc == InMgr(Remove, Some(seen))
    requires Current(s.core, s.threads[t].ctl)
    ensures var r := s.core.ctls[s.threads[t].ctl].run;
            var k' := CommitRemove(s, t, seen, now).core;
            && r !in k'.entries && Registry.OnlineAs(k'.reg, r) == None
            && (forall q :: q != r ==> Registry.OnlineAs(k'.reg, q) == Registry.OnlineAs(s.core.reg, q))
  {
    hide Reachable;
    hide CoreOk, DomainOk, Exclusive, ThreadsOk, ThreadOk, Registry.OnlineAs, Registry.MarkedOffline;
    ReachableOk(s);
    var k := s.core;
    var r := k.ctls[s.threads[t].ctl].run;
    ThreadHolds(s, t);
    InvParts(s);
    RemoverFacts(k, t, s.threads[t], seen);
    hide Inv;
    RegistryOf(k);
    RemovedRegistry(k, r, now);
    assert Registry.Inv(k.reg) by { hide *; RegistryInvOf(k); }
    Registry.MarkOfflineEffect(k.reg, r, k.entries[r].onlineId, now);
    hide RegistryOk;
  }

  lemma RegistryOf(k: Core)
    requires CoreOk(k)
    ensures RegistryOk(k)
  {
    hide Names.Inv, CtlsOk, IdsDistinct, EntriesOk, RegistryOk, HandoffOk;
  }

  lemma RegistryInvOf(k: Core)
    requires RegistryOk(k)
    ensures Registry.Inv(k.reg)
  {
    hide Registry.Inv, Registry.OnlineAs;
  }

  /** No step of a removal of a stale generation changes anything but its thread. */
  lemma StaleRemovalChangesNothing(s: State, t: Tid, ok: bool, pick: Ref, now: int)
    requires Reachable(s) && t in s.threads && Ready(s, t, pick) && KindOf(s.threads[t].pc) == Some(Remove)
    requires !Current(s.core, s.threads[t].ctl)
    ensures StepOf(s, t, ok, pick, now).core == s.core
  {
    hide Reachable;
    hide CoreOk, DomainOk, Exclusive, ThreadsOk;
    ReachableOk(s);
    ThreadHolds(s, t);
    InvParts(s);
    hide Inv;
    if s.threads[t].pc.InMgr? {
      hide ThreadOk;
      RemoverFacts(s.core, t, s.threads[t], s.threads[t].pc.maybe.value);
    }
  }

  // ----- Gate stability -----

  /** The thread holds a gate it has found to be the gate of its run's current entry. */
  predicate HoldsRun(pc: Pc) {
    pc.HaveRun? || pc.Writing? || ((pc.WantMgr? || pc.InMgr?) && !pc.kind.Add?)
  }

  lemma HolderFacts(s: State, t: Tid)
    requires Inv(s) && t in s.threads && HoldsRun(s.threads[t].pc)
    ensures var r := RunOf(s.core, s.threads[t].ctl);
            r in s.core.entries && GateOf(s.threads[t].pc) == Some(s.core.entries[r].gate)
  {
    hide CoreOk, DomainOk, Exclusive, ThreadsOk;
    ThreadHolds(s, t);
    hide Inv, HandlerOk, WorkerOk, CloserOk, CarrierOk;
  }

  /** Only the holder of a run's gate changes the run's slot once it is filled. */
  lemma SlotChange(s: State, a: Action, r: string)
    requires Inv(s) && Enabled(s, a) && r in s.core.entries
    ensures (r in Apply(s, a).core.entries && Apply(s, a).core.entries[r] == s.core.entries[r])
            || (a.Step? && GateOf(s.threads[a.t].pc) == Some(s.core.entries[r].gate))
  {
    hide CoreOk, DomainOk, Exclusive, ThreadsOk, ThreadOk, Inv;
    hide EndLogin, DeliverStep, WorkerStep, NotifyStep, PassBarrier, CloseStep, BeginLogin, LifeFree,
      Registry.Registered, Registry.MarkedOffline, Registry.Conflicts, Close, Take, NewCloser;
    if a.Step? && s.threads[a.t].pc.InMgr? {
      CommitSlot(s, a, r);
    } else if a.Step? {
      QuietSlot(s, a, r);
    }
  }

  lemma QuietSlot(s: State, a: Action, r: string)
    requires Enabled(s, a) && a.Step? && !s.threads[a.t].pc.InMgr?
    ensures Apply(s, a).core.entries == s.core.entries
  {
    hide LifeFree, GateFree, MgrFree, Close;
  }

  lemma CommitSlot(s: State, a: Action, r: string)
    requires Inv(s) && Enabled(s, a) && r in s.core.entries && a.Step? && s.threads[a.t].pc.InMgr?
    ensures (r in Apply(s, a).core.entries && Apply(s, a).core.entries[r] == s.core.entries[r])
            || GateOf(s.threads[a.t].pc) == Some(s.core.entries[r].gate)
  {
    hide CoreOk, DomainOk, Exclusive, ThreadsOk, ThreadOk, LifeFree, Registry.Registered, Registry.MarkedOffline,
        Registry.Conflicts, Close, ReplacedBarrier;
    var k, thr := s.core, s.threads[a.t];
    ThreadHolds(s, a.t);
    InvParts(s);
    KindFacts(s, a.t);
    if thr.pc.kind.Add? {
      AdderFacts(k, a.t, thr, thr.pc.maybe);
    } else {
      HolderFacts(s, a.t);
    }
    hide Inv;
  }

  /** A step that leaves the run in the map leaves it its gate: a replacement inherits it. */
  lemma SlotGate(s: State, a: Action, r: string)
    requires Inv(s) && Enabled(s, a) && r in s.core.entries && r in Apply(s, a).core.entries
    ensures Apply(s, a).core.entries[r].gate == s.core.entries[r].gate
  {
    hide Inv, EndLogin, DeliverStep, WorkerStep, NotifyStep, PassBarrier, CloseStep, BeginLogin, CommitAdd,
      CommitActivate, CommitRemove, LifeFree, MgrFree, GateFree, Close, Take, NewCloser;
    if a.Step? && s.threads[a.t].pc.InMgr? {
      CommitGate(s, a, r);
    } else if a.Step? {
      QuietSlot(s, a, r);
    }
  }

  lemma CommitGate(s: State, a: Action, r: string)
    requires Inv(s) && Enabled(s, a) && r in s.core.entries && a.Step? && s.threads[a.t].pc.InMgr?
    ensures r in Apply(s, a).core.entries ==> Apply(s, a).core.entries[r].gate == s.core.entries[r].gate
  {
    hide CoreOk, DomainOk, Exclusive, ThreadsOk, ThreadOk, LifeFree, Registry.Registered, Registry.MarkedOffline,
      Registry.Conflicts, Close, ReplacedBarrier;
    KindFacts(s, a.t);
    hide Inv;
  }

  /** A run keeps one gate as long as it stays in the map, through any number of replacements. */
  lemma {:induction false} GateIsInherited(run: seq<State>, i: nat, j: nat, r: string)
    requires IsRun(run) && i <= j < |run| && forall m :: i <= m <= j ==> r in run[m].core.entries
    ensures run[j].core.entries[r].gate == run[i].core.entries[r].gate
    decreases j
  {
    hide IsRun, Inv, Enabled, Apply;
    if i < j {
      GateIsInherited(run, i, j - 1, r);
      var a := ActionOf(run, j - 1);
      SlotGate(run[j - 1], a, r);
    }
  }

  /** Decisions about one run are taken one at a time: two threads that hold its validated
      gate are the same thread. */
  lemma OneHolderPerRun(run: seq<State>, i: nat, t: Tid, u: Tid)
    requires IsRun(run) && i < |run| && t in run[i].threads && u in run[i].threads
    requires HoldsRun(run[i].threads[t].pc) && HoldsRun(run[i].threads[u].pc)
    requires RunOf(run[i].core, run[i].threads[t].ctl) == RunOf(run[i].core, run[i].threads[u].ctl)
    ensures t == u
  {
    hide IsRun, CoreOk, DomainOk, ThreadsOk;
    RunOk(run, i);
    HolderFacts(run[i], t);
    HolderFacts(run[i], u);
    InvParts(run[i]);
    hide Inv, GateOf, HoldsRun;
  }

  /** Gate stability: while a thread holds a validated gate, no step of any other
      thread and no arrival changes its run's slot in the map. */
  lemma GateStability(s: State, a: Action, t: Tid)
    requires Inv(s) && Enabled(s, a) && t in s.threads && HoldsRun(s.threads[t].pc) && (a.Step? ==> a.t != t)
    ensures var r := RunOf(s.core, s.threads[t].ctl);
            && r in s.core.entries && r in Apply(s, a).core.entries
            && Apply(s, a).core.entries[r] == s.core.entries[r]
  {
    hide Enabled, Apply, CoreOk, ThreadsOk, DomainOk;
    HolderFacts(s, t);
    SlotChange(s, a, RunOf(s.core, s.threads[t].ctl));
    InvParts(s);
    if a.Step? { StepThread(s, a); }
    hide Inv, GateOf;
  }

  lemma StepThread(s: State, a: Action)
    requires Enabled(s, a) && a.Step?
    ensures a.t in s.threads
  {
    hide Ready, Unblocked;
  }

  /** Other threads act, and arrivals happen, from state i to state j. */
  ghost predicate OthersAct(run: seq<State>, i: nat, j: nat, t: Tid)
    requires i <= j < |run|
  {
    forall m :: i <= m < j ==> OtherAct(run[m], run[m + 1], t)
  }

  ghost predicate OtherAct(s: State, s': State, t: Tid) {
    exists a :: Enabled(s, a) && s' == Apply(s, a) && (a.Step? ==> a.t != t)
  }

  lemma OtherActKeepsSlot(s: State, s': State, t: Tid)
    requires Inv(s) && OtherAct(s, s', t) && t in s.threads && HoldsRun(s.threads[t].pc)
    ensures t in s'.threads && s'.threads[t] == s.threads[t]
    ensures var r := RunOf(s.core, s.threads[t].ctl);
            && RunOf(s'.core, s.threads[t].ctl) == r
            && r in s.core.entries && r in s'.core.entries && s'.core.entries[r] == s.core.entries[r]
  {
    hide Inv, Enabled, Apply;
    var a :| Enabled(s, a) && s' == Apply(s, a) && (a.Step? ==> a.t != t);
    GateStability(s, a, t);
    OthersStay(s, a, t);
  }

  /** The same over any stretch of a run in which the holder itself does not move. */
  lemma {:induction false} GateStabilityOverRun(run: seq<State>, i: nat, j: nat, t: Tid)
    requires IsRun(run) && i <= j < |run| && t in run[i].threads && HoldsRun(run[i].threads[t].pc)
    requires OthersAct(run, i, j, t)
    ensures t in run[j].threads && run[j].threads[t] == run[i].threads[t]
    ensures var r := RunOf(run[i].core, run[i].threads[t].ctl);
            && RunOf(run[j].core, run[j].threads[t].ctl) == r
            && r in run[i].core.entries && r in run[j].core.entries && run[j].core.entries[r] == run[i].core.entries[r]
    decreases j
  {
    hide IsRun, Inv, OtherAct;
    if i == j {
      RunOk(run, i);
      HolderFacts(run[i], t);
    } else {
      GateStabilityOverRun(run, i, j - 1, t);
      RunOk(run, j - 1);
      assert OtherAct(run[j - 1], run[j - 1 + 1], t);
      OtherActKeepsSlot(run[j - 1], run[j], t);
    }
  }

  lemma OthersStay(s: State, a: Action, t: Tid)
    requires Inv(s) && Enabled(s, a) && t in s.threads && (a.Step? ==> a.t != t)
    ensures t in Apply(s, a).threads && Apply(s, a).threads[t] == s.threads[t]
    ensures s.threads[t].ctl in s.core.ctls ==>
              RunOf(Apply(s, a).core, s.threads[t].ctl) == RunOf(s.core, s.threads[t].ctl)
    ensures s.threads[t].ctl !in s.core.ctls ==> !HoldsRun(s.threads[t].pc)
  {
    hide Inv, Enabled, Apply;
    ThreadsStay(s, a, t);
    if s.threads[t].ctl in s.core.ctls {
      ActionSteps(s, a, s.threads[t].ctl);
    } else {
      HolderHasControl(s, t);
    }
  }

  lemma HolderHasControl(s: State, t: Tid)
    requires Inv(s) && t in s.threads && s.threads[t].ctl !in s.core.ctls
    ensures !HoldsRun(s.threads[t].pc)
  {
    hide CoreOk, DomainOk, Exclusive, ThreadsOk;
    ThreadHolds(s, t);
    hide Inv, SeenOk;
  }

  lemma ThreadsStay(s: State, a: Action, t: Tid)
    requires Inv(s) && Enabled(s, a) && t in s.threads && (a.Step? ==> a.t != t)
    ensures t in Apply(s, a).threads && Apply(s, a).threads[t] == s.threads[t]
  {
    hide Inv, StepOf, Ready, Unblocked, LifeFree, MgrFree, NewCloser, MoveAllowed, Close, Take;
    if a.Step? {
      hide Enabled, Apply;
      StepThread(s, a);
      if s.threads[a.t].pc.Writing? { WriterHasNoWorker(s, a.t); }
      if s.threads[a.t].pc.InMgr? { CommitKeepsThreads(s, a, t); } else { PlainKeepsThreads(s, a, t); }
    }
  }

  lemma CommitKeepsThreads(s: State, a: Action, t: Tid)
    requires Enabled(s, a) && a.Step? && s.threads[a.t].pc.InMgr? && t in s.threads && a.t != t
    ensures t in Apply(s, a).threads && Apply(s, a).threads[t] == s.threads[t]
  {
    hide LifeFree, GateFree, MgrFree, Registry.Conflicts, FirstAdd, ReplacingAdd, Activated, Removed, AfterFailure,
      Unblocked, AddCommits, ActivationOpen, OwnsEntry;
  }

  lemma PlainKeepsThreads(s: State, a: Action, t: Tid)
    requires Enabled(s, a) && a.Step? && !s.threads[a.t].pc.InMgr? && t in s.threads && a.t != t
    requires s.threads[a.t].pc.Writing? ==> t != Worker(s.threads[a.t].ctl)
    ensures t in Apply(s, a).threads && Apply(s, a).threads[t] == s.threads[t]
  {
    hide LifeFree, GateFree, MgrFree, Close, AfterRead, AfterRecheck, AfterFailure, Unblocked, CommitAdd,
        CommitActivate,
      CommitRemove, DrainOne, FinishLocked, Deliver, Start, Accepts, Names.StartSweep;
  }

  lemma WriterHasNoWorker(s: State, t: Tid)
    requires Inv(s) && t in s.threads && s.threads[t].pc.Writing?
    ensures Worker(s.threads[t].ctl) !in s.threads
  {
    hide CoreOk, Exclusive, ThreadsOk, ThreadOk;
    ThreadHolds(s, t);
    InvParts(s);
    WriterFacts(s.core, t, s.threads[t], s.threads[t].pc.seen);
    hide Inv;
  }

  /** A gate made for a re-created run differs from every gate a waiting thread has read,
      so a thread that waited across the re-creation never passes the second look at the map. */
  lemma FreshGateRefusesWaiters(s: State, t: Tid, u: Tid)
    requires Reachable(s) && t in s.threads && s.threads[t].pc == InMgr(Add, None)
    requires AddCommits(s.core, s.threads[t].ctl, None)
    requires u in s.threads && (s.threads[u].pc.WantGate? || s.threads[u].pc.Recheck?)
    ensures var r := s.core.ctls[s.threads[t].ctl].run;
            r !in s.core.entries && r in CommitAdd(s, t, None).core.entries
            && CommitAdd(s, t, None).core.entries[r].gate != s.threads[u].pc.seen.gate
  {
    hide Reachable;
    hide CoreOk, DomainOk, Exclusive, ThreadsOk;
    ReachableOk(s);
    ThreadHolds(s, u);
    hide Inv, HandlerOk, WorkerOk, CloserOk, CarrierOk;
  }

  /** The gate of the run's entry, if there is one, was made after ID g was given out. */
  predicate NewerGate(k: Core, r: string, g: nat) {
    g <= k.lastId && (r in k.entries ==> k.entries[r].gate > g)
  }

  lemma CommitKeepsNewer(s: State, a: Action, r: string, g: nat)
    requires Enabled(s, a) && a.Step? && s.threads[a.t].pc.InMgr?
    ensures s.core.lastId <= Apply(s, a).core.lastId
    ensures NewerGate(s.core, r, g) ==> NewerGate(Apply(s, a).core, r, g)
  {
    hide LifeFree, GateFree, MgrFree, Close, Registry.Registered, Registry.MarkedOffline, Registry.Conflicts, Admit,
      ReplacedBarrier, AfterFailure, Unblocked;
  }

  lemma PlainKeepsIds(s: State, a: Action)
    requires Enabled(s, a) && a.Step? && !s.threads[a.t].pc.InMgr?
    ensures Apply(s, a).core.lastId == s.core.lastId
  {
    hide LifeFree, GateFree, MgrFree, Close, AfterRead, AfterRecheck, AfterFailure, Unblocked, CommitAdd,
        CommitActivate,
      CommitRemove, DrainOne, FinishLocked, Deliver, Start, Accepts;
  }

  lemma ActionKeepsNewer(s: State, a: Action, r: string, g: nat)
    requires Enabled(s, a)
    ensures s.core.lastId <= Apply(s, a).core.lastId
    ensures NewerGate(s.core, r, g) ==> NewerGate(Apply(s, a).core, r, g)
  {
    hide StepOf, Ready, Unblocked, LifeFree, MgrFree, NewCloser, MoveAllowed, Close, Take;
    if a.Step? {
      hide Enabled, Apply;
      StepThread(s, a);
      if s.threads[a.t].pc.InMgr? {
        CommitKeepsNewer(s, a, r, g);
      } else {
        QuietSlot(s, a, r);
        PlainKeepsIds(s, a);
      }
    }
  }

  lemma {:induction false} NewerOverRun(run: seq<State>, i: nat, j: nat, r: string, g: nat)
    requires IsRun(run) && i <= j < |run|
    ensures run[i].core.lastId <= run[j].core.lastId
    ensures NewerGate(run[i].core, r, g) ==> NewerGate(run[j].core, r, g)
    decreases j
  {
    hide IsRun, Inv, Enabled, Apply, NewerGate;
    if i < j {
      NewerOverRun(run, i, j - 1, r, g);
      var a := ActionOf(run, j - 1);
      ActionKeepsNewer(run[j - 1], a, r, g);
    }
  }

  /** A thread that does not move keeps its place and its run. */
  lemma {:induction false} StillThere(run: seq<State>, i: nat, m: nat, u: Tid)
    requires IsRun(run) && i <= m < |run| && u in run[i].threads && OthersAct(run, i, m, u)
    requires run[i].threads[u].ctl in run[i].core.ctls
    ensures u in run[m].threads && run[m].threads[u] == run[i].threads[u]
    ensures run[i].threads[u].ctl in run[m].core.ctls
    ensures RunOf(run[m].core, run[i].threads[u].ctl) == RunOf(run[i].core, run[i].threads[u].ctl)
    decreases m
  {
    hide IsRun, Inv, OtherAct;
    if i < m {
      StillThere(run, i, m - 1, u);
      RunOk(run, m - 1);
      assert OtherAct(run[m - 1], run[m - 1 + 1], u);
      OtherActKeepsThread(run[m - 1], run[m], u);
    }
  }

  lemma OtherActKeepsThread(s: State, s': State, u: Tid)
    requires Inv(s) && OtherAct(s, s', u) && u in s.threads && s.threads[u].ctl in s.core.ctls
    ensures u in s'.threads && s'.threads[u] == s.threads[u] && s.threads[u].ctl in s'.core.ctls
    ensures RunOf(s'.core, s.threads[u].ctl) == RunOf(s.core, s.threads[u].ctl)
  {
    hide Inv, Enabled, Apply;
    var a :| Enabled(s, a) && s' == Apply(s, a) && (a.Step? ==> a.t != u);
    OthersStay(s, a, u);
    ActionSteps(s, a, s.threads[u].ctl);
  }

  lemma WaiterFacts(s: State, u: Tid)
    requires Inv(s) && u in s.threads && (s.threads[u].pc.WantGate? || s.threads[u].pc.Recheck?)
    ensures s.threads[u].ctl in s.core.ctls && s.threads[u].pc.seen.gate <= s.core.lastId
  {
    hide CoreOk, DomainOk, Exclusive, ThreadsOk;
    ThreadHolds(s, u);
    hide Inv;
  }

  /** Over every run: a thread that read a gate of a run and then waits while the run is
      removed, even if it is created again with a fresh gate, fails at its second look. */
  lemma RecreationRefusesWaiter(run: seq<State>, i: nat, j: nat, m: nat, u: Tid)
    requires IsRun(run) && i <= j <= m < |run| && u in run[i].threads && OthersAct(run, i, m, u)
    requires var pc := run[i].threads[u].pc; (pc.WantGate? || pc.Recheck?) && !pc.kind.Add?
    requires RunOf(run[i].core, run[i].threads[u].ctl) !in run[j].core.entries
    ensures u in run[m].threads && run[m].threads[u] == run[i].threads[u]
    ensures var thr := run[i].threads[u];
            AfterRecheck(run[m].core, u, thr, thr.pc.kind, thr.pc.seen) == AfterFailure(u, thr.pc.kind)
  {
    hide IsRun, Inv, OthersAct, AfterFailure;
    var thr := run[i].threads[u];
    var r := RunOf(run[i].core, thr.ctl);
    RunOk(run, i);
    WaiterFacts(run[i], u);
    StillThere(run, i, m, u);
    NewerOverRun(run, i, j, r, 0);
    NewerOverRun(run, j, m, r, run[j].core.lastId);
  }

  // ----- Login responses and the life cycle -----

  /** The success LoginResp is written only for the current, activated, pending
      generation; afterwards that control is running, and this was its only success. */
  lemma LoginResponse(run: seq<State>, i: nat, c: Ref)
    requires IsRun(run) && i + 1 < |run| && c in run[i].core.ctls && c in run[i + 1].core.ctls
    requires run[i + 1].core.ctls[c].loginWrites != run[i].core.ctls[c].loginWrites
    ensures Current(run[i].core, c) && run[i].core.ctls[c].activated && run[i].core.ctls[c].state.Pending?
    ensures Current(run[i + 1].core, c) && run[i + 1].core.ctls[c].state.Running? && Worker(c) in run[i + 1].threads
    ensures run[i].core.ctls[c].loginWrites == 0 && run[i + 1].core.ctls[c].loginWrites == 1
  {
    hide Inv, IsRun, Enabled, Apply;
    var s := run[i];
    var a := ActionOf(run, i);
    ActionSteps(s, a, c);
    assert WritesLogin(s, a, c);
    WriteFacts(s, a, c);
    RunOk(run, i + 1);
    AfterWrite(run[i + 1], c);
  }

  lemma WriteFacts(s: State, a: Action, c: Ref)
    requires Inv(s) && Enabled(s, a) && WritesLogin(s, a, c)
    ensures Current(s.core, c) && s.core.ctls[c].activated && s.core.ctls[c].state.Pending?
    ensures s.core.ctls[c].loginWrites == 0
    ensures Current(Apply(s, a).core, c)
  {
    hide CoreOk, DomainOk, Exclusive, ThreadsOk, ThreadOk;
    ThreadHolds(s, a.t);
    InvParts(s);
    WriterFacts(s.core, a.t, s.threads[a.t], s.threads[a.t].pc.seen);
    CtlHolds(s.core, c);
    hide Inv, PoolOk, BarrierOk;
  }

  lemma AfterWrite(s: State, c: Ref)
    requires Inv(s) && c in s.core.ctls && s.core.ctls[c].state.Running?
    ensures Worker(c) in s.threads && s.core.ctls[c].loginWrites == 1
  {
    hide CoreOk, Exclusive, ThreadsOk;
    InvParts(s);
    CtlHolds(s.core, c);
    hide Inv, PoolOk, BarrierOk;
  }

  /** In every state a control's doneCh was closed once if it is Closed and never
      otherwise, and it was answered with success exactly if its worker was started. */
  lemma LifecycleCounts(run: seq<State>, i: nat, c: Ref)
    requires IsRun(run) && i < |run| && c in run[i].core.ctls
    ensures var x := run[i].core.ctls[c];
            && x.doneCloses == (if x.state.Closed? then 1 else 0)
            && x.loginWrites == (if x.started then 1 else 0)
            && (x.started <==> Worker(c) in run[i].threads)
            && (x.started && x.state.Closed? ==> x.cleaned)
  {
    hide IsRun, CoreOk, Exclusive, ThreadsOk;
    assert Inv(run[i]) by { hide *; RunOk(run, i); }
    InvParts(run[i]);
    CtlHolds(run[i].core, c);
    hide Inv, PoolOk, BarrierOk;
  }

  /** Between any two states of a run a control only moved forward. */
  lemma {:induction false} LifecycleForward(run: seq<State>, i: nat, j: nat, c: Ref)
    requires IsRun(run) && i <= j < |run| && c in run[i].core.ctls
    ensures c in run[j].core.ctls && Forward(run[i].core.ctls[c], run[j].core.ctls[c])
    decreases j
  {
    hide IsRun, Inv, Enabled, Apply, Forward;
    if i == j {
      ForwardReflexive(run[i].core.ctls[c]);
    } else {
      LifecycleForward(run, i, j - 1, c);
      var a := ActionOf(run, j - 1);
      ActionSteps(run[j - 1], a, c);
      ForwardTransitive(run[i].core.ctls[c], run[j - 1].core.ctls[c], run[j].core.ctls[c]);
    }
  }

  lemma ForwardReflexive(x: Ctl)
    ensures Forward(x, x)
  {
  }

  lemma ForwardTransitive(x: Ctl, y: Ctl, z: Ctl)
    requires Forward(x, y) && Forward(y, z)
    ensures Forward(x, z)
  {
  }

  /** A control whose worker was started is finished only by that worker's last section. */
  lemma OnlyTheWorkerFinishes(run: seq<State>, i: nat, c: Ref)
    requires IsRun(run) && i + 1 < |run| && c in run[i].core.ctls && c in run[i + 1].core.ctls
    requires run[i].core.ctls[c].started && !run[i].core.ctls[c].state.Closed? && run[i + 1].core.ctls[c].state.Closed?
    ensures Worker(c) in run[i].threads && run[i].threads[Worker(c)].pc.Finish? && LeftNothing(run[i].core, c)
    ensures !Current(run[i].core, c)
  {
    hide Inv, IsRun, Enabled, Apply, LeftNothing, CoreOk;
    var s := run[i];
    var a := ActionOf(run, i);
    ActionSteps(s, a, c);
    assert Finishes(s, a, c);
    FinisherFacts(s, c);
    InvParts(s);
    CleanedLeftNothing(s.core, c);
  }

  lemma FinisherFacts(s: State, c: Ref)
    requires Inv(s) && Worker(c) in s.threads && s.threads[Worker(c)].pc.Finish?
    ensures c in s.core.ctls && s.core.ctls[c].cleaned && !Current(s.core, c)
  {
    hide CoreOk, DomainOk, Exclusive, ThreadsOk;
    ThreadHolds(s, Worker(c));
    hide Inv, SeenOk;
  }
}

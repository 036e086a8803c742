/** Whoever is told to stop is also interrupted: a control that is closing has its connection
    cut, or the handler that replaced it is about to cut it. */
module Interrupts {
  import opened Lifecycle
  import opened Protocol
  import opened CoreInvariant
  import opened ThreadInvariant
  import opened StepInvariant
  import opened Runs
  import opened Effects
  import opened Handoff
  import opened WorkConns
  import Registry
  import Names

  predicate Ending(k: Core, c: Ref) {
    c in k.ctls && Rank(k.ctls[c].state) >= Rank(Closing)
  }

  /** Some handler is about to call c.Replaced. */
  ghost predicate NotifierOf(s: State, c: Ref) {
    exists u :: u in s.threads && s.threads[u].pc == Notify(c)
  }

  ghost predicate EndOk(s: State, c: Ref) {
    Ending(s.core, c) ==> c in s.core.cut || NotifierOf(s, c)
  }

  ghost predicate BarrierEnds(k: Core, c: Ref) {
    c in k.ctls && k.ctls[c].barrier.Some? ==> Ending(k, k.ctls[c].barrier.value)
  }

  ghost predicate InterruptsOk(s: State) {
    (forall c :: EndOk(s, c)) && (forall c :: BarrierEnds(s.core, c))
  }

  // ----- Only the sections meant for it end a control -----

  lemma CommitEnds(s: State, a: Action, c: Ref)
    requires Enabled(s, a) && a.Step? && s.threads[a.t].pc.InMgr? && c in s.core.ctls && !Ending(s.core, c)
    ensures Ending(Apply(s, a).core, c) ==> NotifierOf(Apply(s, a), c)
  {
    hide LifeFree, GateFree, MgrFree, Registry.Registered, Registry.MarkedOffline, Registry.Conflicts, ReplacedBarrier,
      AfterFailure, Unblocked, ActivationOpen, OwnsEntry;
    assert a.t in Apply(s, a).threads;
  }

  lemma WorkerEnds(s: State, c: Ref, pc: Pc, d: Ref)
    requires Worker(c) in s.threads && c in s.core.ctls && d in s.core.ctls && !Ending(s.core, d)
    requires pc.Finish? ==> Ending(s.core, c)
    ensures Ending(WorkerStep(s, c, pc).core, d) ==> d in WorkerStep(s, c, pc).core.cut
  {
    hide Names.StartSweep;
  }

  lemma PlainEnds(s: State, a: Action, c: Ref)
    requires Inv(s) && Enabled(s, a) && a.Step? && !s.threads[a.t].pc.InMgr? && c in s.core.ctls && !Ending(s.core, c)
    ensures Ending(Apply(s, a).core, c) ==> c in Apply(s, a).core.cut
  {
    hide Inv, Ending, LifeFree, GateFree, MgrFree, AfterRead, AfterRecheck, AfterFailure, Unblocked, CommitAdd,
      CommitActivate, CommitRemove, WorkerStep, EndLogin, BeginLogin, DeliverStep, NotifyStep, CloseStep, PassBarrier;
    var pc := s.threads[a.t].pc;
    if IsWorkerPc(pc) {
      if pc.Finish? { FinisherEnds(s, s.threads[a.t].ctl); }
      WorkerEnds(s, s.threads[a.t].ctl, pc, c);
    } else {
      HandlerEnds(s, a, c);
    }
  }

  lemma HandlerEnds(s: State, a: Action, c: Ref)
    requires Enabled(s, a) && a.Step? && !s.threads[a.t].pc.InMgr? && !IsWorkerPc(s.threads[a.t].pc)
    requires c in s.core.ctls && !Ending(s.core, c)
    ensures Ending(Apply(s, a).core, c) ==> c in Apply(s, a).core.cut
  {
    hide LifeFree, GateFree, MgrFree, AfterRead, AfterRecheck, AfterFailure, Unblocked, CommitAdd, CommitActivate,
      CommitRemove, WorkerStep, Close, Accepts;
  }

  lemma FinisherEnds(s: State, c: Ref)
    requires Inv(s) && Worker(c) in s.threads && s.threads[Worker(c)].pc.Finish?
    ensures Ending(s.core, c)
  {
    hide CoreOk, DomainOk, Exclusive, ThreadsOk;
    ThreadHolds(s, Worker(c));
    hide Inv, SeenOk;
  }

  lemma ActionEnds(s: State, a: Action, c: Ref)
    requires Inv(s) && Enabled(s, a) && c in s.core.ctls && !Ending(s.core, c)
    ensures EndOk(Apply(s, a), c)
  {
    hide Inv, StepOf, Ready, Unblocked, LifeFree, MgrFree, NewCloser, NotifierOf, Close;
    if a.Step? {
      hide Enabled, Apply;
      StepThread(s, a);
      if s.threads[a.t].pc.InMgr? { CommitEnds(s, a, c); } else { PlainEnds(s, a, c); }
    }
  }

  // ----- A pending notification is not lost -----

  lemma NotifyCuts(s: State, a: Action, c: Ref)
    requires Enabled(s, a) && a.Step? && s.threads[a.t].pc == Notify(c)
    ensures c in Apply(s, a).core.cut
  {
    hide LifeFree, Close;
  }

  lemma CutStays(s: State, a: Action)
    requires Inv(s) && Enabled(s, a)
    ensures s.core.cut <= Apply(s, a).core.cut
  {
    hide Inv, StepOf, Ready, Unblocked, LifeFree, MgrFree, NewCloser, Close, Take, MoveAllowed;
    if a.Step? {
      hide Enabled, Apply;
      StepThread(s, a);
      if s.threads[a.t].pc.InMgr? { CommitKeepsCut(s, a); } else { PlainKeepsCut(s, a); }
    }
  }

  lemma CommitKeepsCut(s: State, a: Action)
    requires Enabled(s, a) && a.Step? && s.threads[a.t].pc.InMgr?
    ensures Apply(s, a).core.cut == s.core.cut
  {
    hide LifeFree, GateFree, MgrFree, Close, Registry.Registered, Registry.MarkedOffline, Registry.Conflicts, Admit,
      ReplacedBarrier, AfterFailure, Unblocked, AddCommits, ActivationOpen, OwnsEntry;
  }

  lemma PlainKeepsCut(s: State, a: Action)
    requires Enabled(s, a) && a.Step? && !s.threads[a.t].pc.InMgr?
    ensures s.core.cut <= Apply(s, a).core.cut
  {
    hide LifeFree, GateFree, MgrFree, Close, AfterRead, AfterRecheck, AfterFailure, Unblocked, CommitAdd,
        CommitActivate,
      CommitRemove, DrainOne, FinishLocked, Deliver, Start, Accepts;
  }

  lemma EndingStaysOk(s: State, a: Action, c: Ref)
    requires Inv(s) && Enabled(s, a) && Ending(s.core, c) && EndOk(s, c)
    ensures EndOk(Apply(s, a), c)
  {
    hide Inv, Enabled, Apply, Ending;
    CutStays(s, a);
    if c !in s.core.cut {
      var u :| u in s.threads && s.threads[u].pc == Notify(c);
      if a.Step? && a.t == u { NotifyCuts(s, a, c); } else { ThreadsStay(s, a, u); }
    }
  }

  // ----- A barrier always belongs to a control that is ending -----

  lemma EndingStays(s: State, a: Action, c: Ref)
    requires Inv(s) && Enabled(s, a) && Ending(s.core, c)
    ensures Ending(Apply(s, a).core, c)
  {
    hide Inv, Enabled, Apply;
    ActionSteps(s, a, c);
  }

  lemma ReplacingBarrier(k: Core, c: Ref, d: Ref)
    requires c in k.ctls && k.ctls[c].run in k.entries && k.entries[k.ctls[c].run].ctl in k.ctls && d in k.ctls
    requires k.ctls[c].state.Created? && forall e :: BarrierEnds(k, e)
    ensures var k' := ReplacingAdd(k, c);
            d in k'.ctls && (k'.ctls[d].barrier == k.ctls[d].barrier || k'.ctls[d].barrier.None?
                             || Ending(k, k'.ctls[d].barrier.value) || Ending(k', k'.ctls[d].barrier.value))
  {
    assert BarrierEnds(k, k.entries[k.ctls[c].run].ctl);
  }

  /** The barrier is old, or none, or of a control that is ending now. */
  ghost predicate BarrierStep(k: Core, k': Core, c: Ref) {
    c in k.ctls && c in k'.ctls &&
    (k'.ctls[c].barrier == k.ctls[c].barrier || k'.ctls[c].barrier.None?
     || Ending(k, k'.ctls[c].barrier.value) || Ending(k', k'.ctls[c].barrier.value))
  }

  lemma CommitBarrier(s: State, a: Action, c: Ref)
    requires Enabled(s, a) && a.Step? && s.threads[a.t].pc.InMgr? && c in s.core.ctls
    requires forall d :: BarrierEnds(s.core, d)
    ensures BarrierStep(s.core, Apply(s, a).core, c)
  {
    hide LifeFree, GateFree, MgrFree, Registry.Registered, Registry.MarkedOffline, Registry.Conflicts, AfterFailure,
      Unblocked, ActivationOpen, OwnsEntry, ReplacingAdd, BarrierEnds, Ending;
    var k, d := s.core, s.threads[a.t].ctl;
    if d in k.ctls && k.ctls[d].run in k.entries && k.entries[k.ctls[d].run].ctl in k.ctls && k.ctls[d].state.Created? {
      ReplacingBarrier(k, d, c);
    }
  }

  lemma PlainBarrier(s: State, a: Action, c: Ref)
    requires Enabled(s, a) && a.Step? && !s.threads[a.t].pc.InMgr? && c in s.core.ctls
    ensures c in Apply(s, a).core.ctls && Apply(s, a).core.ctls[c].barrier == s.core.ctls[c].barrier
  {
    hide LifeFree, GateFree, MgrFree, AfterRead, AfterRecheck, AfterFailure, Unblocked, CommitAdd, CommitActivate,
      CommitRemove, Accepts, WorkerStep;
    if IsWorkerPc(s.threads[a.t].pc) { WorkerBarrier(s, s.threads[a.t].ctl, s.threads[a.t].pc, c); }
  }

  lemma WorkerBarrier(s: State, c: Ref, pc: Pc, d: Ref)
    requires Worker(c) in s.threads && c in s.core.ctls && d in s.core.ctls
    ensures d in WorkerStep(s, c, pc).core.ctls && WorkerStep(s, c, pc).core.ctls[d].barrier == s.core.ctls[d].barrier
  {
    hide Names.StartSweep;
  }

  lemma ActionBarrier(s: State, a: Action, c: Ref)
    requires Enabled(s, a) && c in s.core.ctls && (forall d :: BarrierEnds(s.core, d))
    ensures BarrierStep(s.core, Apply(s, a).core, c)
  {
    hide StepOf, Ready, Unblocked, LifeFree, MgrFree, NewCloser, MoveAllowed, BarrierEnds, Ending;
    if a.Step? {
      hide Enabled, Apply;
      StepThread(s, a);
      if s.threads[a.t].pc.InMgr? { CommitBarrier(s, a, c); } else { PlainBarrier(s, a, c); }
    }
  }

  lemma BarrierStaysOk(s: State, a: Action, c: Ref)
    requires Inv(s) && Enabled(s, a) && c in s.core.ctls && (forall d :: BarrierEnds(s.core, d))
    ensures BarrierEnds(Apply(s, a).core, c)
  {
    hide Inv, Enabled, Apply, Ending;
    ActionBarrier(s, a, c);
    assert BarrierEnds(s.core, c);
    var y := Apply(s, a).core.ctls[c];
    if y.barrier.Some? && Ending(s.core, y.barrier.value) { EndingStays(s, a, y.barrier.value); }
  }

  // ----- Over every run -----

  lemma NewcomerOk(s: State, a: Action, c: Ref)
    requires Inv(s) && Enabled(s, a) && c !in s.core.ctls
    ensures EndOk(Apply(s, a), c) && BarrierEnds(Apply(s, a).core, c)
  {
    hide Inv, StepOf, Ready, Unblocked, LifeFree, MgrFree, NewCloser, NotifierOf;
    if a.Step? {
      hide Enabled, Apply;
      StepKeepsControls(s, a);
    }
  }

  lemma ActionKeepsInterrupts(s: State, a: Action)
    requires Inv(s) && Enabled(s, a) && InterruptsOk(s)
    ensures InterruptsOk(Apply(s, a))
  {
    hide Inv, Enabled, Apply, EndOk, BarrierEnds;
    forall c ensures EndOk(Apply(s, a), c) && BarrierEnds(Apply(s, a).core, c) {
      assert EndOk(s, c);
      if c !in s.core.ctls { NewcomerOk(s, a, c); }
      else {
        BarrierStaysOk(s, a, c);
        if Ending(s.core, c) { EndingStaysOk(s, a, c); } else { ActionEnds(s, a, c); }
      }
    }
  }

  lemma NoControlsYet(s: State)
    requires Init(s)
    ensures InterruptsOk(s)
  {
  }

  lemma {:induction false} RunInterrupts(run: seq<State>, i: nat)
    requires IsRun(run) && i < |run|
    ensures InterruptsOk(run[i])
    decreases i
  {
    hide Inv, Enabled, Apply, InterruptsOk, Next, Init;
    if i > 0 {
      RunInterrupts(run, i - 1);
      var a := ActionOf(run, i - 1);
      ActionKeepsInterrupts(run[i - 1], a);
    } else {
      NoControlsYet(run[0]);
    }
  }

  lemma ReachableInterrupts(s: State)
    requires Reachable(s)
    ensures InterruptsOk(s)
  {
    hide Init, Next, InterruptsOk;
    var run :| IsRun(run) && s == run[|run| - 1];
    RunInterrupts(run, |run| - 1);
  }

  /** Over every run: the connection of a control whose end somebody waits for is cut, or
      its replacer is about to cut it and nothing blocks that handler. */
  lemma BarrierIsInterrupted(run: seq<State>, i: nat, c: Ref)
    requires IsRun(run) && i < |run| && c in run[i].core.ctls && run[i].core.ctls[c].barrier.Some?
    ensures var b := run[i].core.ctls[c].barrier.value;
            Ending(run[i].core, b)
            && (b in run[i].core.cut
                || exists u :: u in run[i].threads && run[i].threads[u].pc == Notify(b) && Unblocked(run[i], u))
  {
    hide IsRun, Inv, Unblocked;
    RunOk(run, i);
    RunInterrupts(run, i);
    var b := run[i].core.ctls[c].barrier.value;
    assert BarrierEnds(run[i].core, c) && EndOk(run[i], b);
    if b !in run[i].core.cut {
      var u :| u in run[i].threads && run[i].threads[u].pc == Notify(b);
      NotifierIsFree(run[i], u, b);
    }
  }

  /** Nobody writes a response for a control that is ending, so its notifier is not blocked. */
  lemma NotifierIsFree(s: State, u: Tid, b: Ref)
    requires Inv(s) && u in s.threads && s.threads[u].pc == Notify(b) && Ending(s.core, b)
    ensures Unblocked(s, u)
  {
    hide Inv;
    forall t | t in s.threads && s.threads[t].pc.Writing? ensures s.threads[t].ctl != b {
      WriterIsPending(s, t);
    }
  }

  lemma WriterIsPending(s: State, t: Tid)
    requires Inv(s) && t in s.threads && s.threads[t].pc.Writing?
    ensures !Ending(s.core, s.threads[t].ctl)
  {
    hide CoreOk, DomainOk, Exclusive, ThreadsOk;
    ThreadHolds(s, t);
    hide Inv, SeenOk;
  }
}

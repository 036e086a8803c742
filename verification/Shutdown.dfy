/** ControlManager.Close: once it has returned, the manager holds no run, the registry shows
    nobody online, and every control that was current has been told to end. */
module Shutdown {
  import opened Options
  import opened Lifecycle
  import opened Protocol
  import opened CoreInvariant
  import opened ThreadInvariant
  import opened StepInvariant
  import opened Runs
  import opened Effects
  import opened Handoff
  import opened Interrupts
  import Registry

  /** The control was removed, told to end and interrupted. */
  predicate Handled(k: Core, c: Ref) {
    Ending(k, c) && c in k.cut && !Current(k, c)
  }

  /** The closing thread still has c ahead of it. */
  predicate Ahead(thr: Thr, c: Ref) {
    c in thr.todo || (thr.ctl == c && (KindOf(thr.pc) == Some(Remove) || thr.pc.CloseTarget?))
  }

  /** Close call n is at work on the controls `targets`, or has finished with all of them. */
  ghost predicate Shutting(s: State, n: nat, targets: set<Ref>) {
    && s.core.closed && Closer(n) in s.threads
    && (s.threads[Closer(n)].pc.Done? ==> s.threads[Closer(n)].todo == {})
    && (forall c :: c in targets ==> Ahead(s.threads[Closer(n)], c) || Handled(s.core, c))
    && (forall r :: r in s.core.entries ==> s.core.entries[r].ctl in targets)
  }

  // ----- Under a closed manager entries only go -----

  lemma CommitWhenClosed(s: State, a: Action, r: string)
    requires Enabled(s, a) && a.Step? && s.threads[a.t].pc.InMgr? && s.core.closed
    ensures Apply(s, a).core.closed
    ensures r in Apply(s, a).core.entries ==> r in s.core.entries && Apply(s, a).core.entries[r] == s.core.entries[r]
  {
    hide LifeFree, GateFree, MgrFree, Close, Registry.Registered, Registry.MarkedOffline, Registry.Conflicts, Admit,
      ReplacedBarrier, AfterFailure, Unblocked, OwnsEntry, Unchanged;
  }

  lemma PlainWhenClosed(s: State, a: Action)
    requires Enabled(s, a) && a.Step? && !s.threads[a.t].pc.InMgr?
    ensures Apply(s, a).core.closed == s.core.closed
  {
    hide LifeFree, GateFree, MgrFree, Close, AfterRead, AfterRecheck, AfterFailure, Unblocked, CommitAdd,
      CommitActivate, CommitRemove, DrainOne, FinishLocked, Deliver, Start, Accepts;
  }

  lemma ClosedStays(s: State, a: Action, r: string)
    requires Enabled(s, a) && s.core.closed
    ensures Apply(s, a).core.closed
    ensures r in Apply(s, a).core.entries ==> r in s.core.entries && Apply(s, a).core.entries[r] == s.core.entries[r]
  {
    hide StepOf, Ready, Unblocked, LifeFree, MgrFree, NewCloser, MoveAllowed, Close, Take;
    if a.Step? {
      hide Enabled, Apply;
      StepThread(s, a);
      if s.threads[a.t].pc.InMgr? {
        CommitWhenClosed(s, a, r);
      } else {
        QuietSlot(s, a, r);
        PlainWhenClosed(s, a);
      }
    }
  }

  lemma HandledStays(s: State, a: Action, c: Ref)
    requires Inv(s) && Enabled(s, a) && s.core.closed && Handled(s.core, c)
    ensures Handled(Apply(s, a).core, c)
  {
    hide Inv, Enabled, Apply;
    EndingStays(s, a, c);
    CutStays(s, a);
    ActionSteps(s, a, c);
    ClosedStays(s, a, s.core.ctls[c].run);
  }

  // ----- The closing thread -----

  lemma CloserFacts(s: State, n: nat)
    requires Inv(s) && Closer(n) in s.threads
    ensures CloserOk(s.core, s.threads[Closer(n)])
  {
    hide CoreOk, DomainOk, Exclusive, ThreadsOk, SeenOk;
    ThreadHolds(s, Closer(n));
    hide Inv;
  }

  lemma CloseHandles(s: State, t: Tid)
    requires t in s.threads && s.threads[t].pc.CloseTarget? && s.threads[t].ctl in s.core.ctls
    requires !Current(s.core, s.threads[t].ctl)
    ensures Handled(CloseStep(s, t).core, s.threads[t].ctl)
  {
  }

  /** Own steps: picking a target, removing it, closing it. */
  lemma CloserStep(s: State, a: Action, n: nat, c: Ref)
    requires Enabled(s, a) && a.Step? && a.t == Closer(n) && Closer(n) in s.threads
    requires CloserOk(s.core, s.threads[Closer(n)]) && Ahead(s.threads[Closer(n)], c)
    requires s.threads[Closer(n)].pc.HaveRun? ==> !s.threads[Closer(n)].pc.kind.Remove?
    ensures Closer(n) in Apply(s, a).threads
    ensures Ahead(Apply(s, a).threads[Closer(n)], c) || Handled(Apply(s, a).core, c)
  {
    hide Unblocked, CommitAdd, CommitActivate, Removed, WorkerStep, NotifyStep, PassBarrier, EndLogin, BeginLogin,
      DeliverStep, Current, OwnsEntry, Unusable, CloseStep;
    if s.threads[Closer(n)].pc.CloseTarget? {
      CloseHandles(s, Closer(n));
      CloseThread(s, Closer(n));
    }
  }

  lemma CloseThread(s: State, t: Tid)
    requires t in s.threads && s.threads[t].ctl in s.core.ctls
    ensures t in CloseStep(s, t).threads && CloseStep(s, t).threads[t].todo == s.threads[t].todo
  {
  }

  lemma CloserDone(s: State, a: Action, n: nat)
    requires Enabled(s, a) && a.Step? && a.t == Closer(n) && Closer(n) in s.threads
    requires CloserOk(s.core, s.threads[Closer(n)])
    requires s.threads[Closer(n)].pc.HaveRun? ==> !s.threads[Closer(n)].pc.kind.Remove?
    ensures Closer(n) in Apply(s, a).threads
    ensures Apply(s, a).threads[Closer(n)].pc.Done? ==> Apply(s, a).threads[Closer(n)].todo == {}
  {
    hide Unblocked, CommitAdd, CommitActivate, Removed, WorkerStep, NotifyStep, PassBarrier, EndLogin, BeginLogin,
      DeliverStep, Current, OwnsEntry, Unusable, Close;
  }

  lemma ActionKeepsShutting(s: State, a: Action, n: nat, targets: set<Ref>)
    requires Inv(s) && Enabled(s, a) && Shutting(s, n, targets)
    ensures Shutting(Apply(s, a), n, targets)
  {
    hide Inv, Enabled, Apply, Ahead, Handled, CloserOk;
    var s', t := Apply(s, a), Closer(n);
    CloserFacts(s, n);
    KindFacts(s, t);
    if a.Step? && a.t == t { CloserDone(s, a, n); } else { ThreadsStay(s, a, t); }
    ClosedStays(s, a, "");
    forall r | r in s'.core.entries ensures s'.core.entries[r].ctl in targets { ClosedStays(s, a, r); }
    forall c | c in targets ensures Ahead(s'.threads[t], c) || Handled(s'.core, c) {
      if Handled(s.core, c) { HandledStays(s, a, c); }
      else if a.Step? && a.t == t { CloserStep(s, a, n, c); }
    }
  }

  lemma ShuttingOverRun(run: seq<State>, i: nat, j: nat, n: nat, targets: set<Ref>)
    requires IsRun(run) && i <= j < |run| && Shutting(run[i], n, targets)
    ensures Shutting(run[j], n, targets)
    decreases j
  {
    hide IsRun, Inv, Enabled, Apply, Shutting;
    if i < j {
      ShuttingOverRun(run, i, j - 1, n, targets);
      var a := ActionOf(run, j - 1);
      ActionKeepsShutting(run[j - 1], a, n, targets);
    }
  }

  lemma EntriesAreCurrent(k: Core, r: string)
    requires CoreOk(k) && r in k.entries
    ensures Current(k, k.entries[r].ctl)
  {
    hide CoreOk;
    EntryOfRun(k, r);
  }

  lemma ShuttingBegins(s: State, n: nat)
    requires Enabled(s, CloseManager(n))
    ensures Shutting(Apply(s, CloseManager(n)), n, NewCloser(s.core).todo)
  {
    hide MgrFree;
  }

  /** After ControlManager.Close has returned: no run is held and none ever will be, nobody is
      online, and every control that was current at the call was removed, told to end and
      interrupted. */
  lemma CloseEmptiesManager(run: seq<State>, i: nat, j: nat, n: nat, c: Ref, r: string)
    requires IsRun(run) && i + 1 <= j < |run|
    requires Enabled(run[i], CloseManager(n)) && run[i + 1] == Apply(run[i], CloseManager(n))
    requires Closer(n) in run[j].threads && run[j].threads[Closer(n)].pc.Done?
    ensures run[j].core.closed && run[j].core.entries == map[] && Registry.OnlineAs(run[j].core.reg, r).None?
    ensures Current(run[i].core, c) ==> Handled(run[j].core, c)
  {
    hide IsRun, Inv, Enabled, Apply, NewCloser, Handled, Registry.OnlineAs;
    var targets := NewCloser(run[i].core).todo;
    ShuttingBegins(run[i], n);
    ShuttingOverRun(run, i + 1, j, n, targets);
    RunOk(run, j);
    NobodyHeld(run[j], n, targets);
    NoGhostClients(run, j, r);
    if Current(run[i].core, c) { CurrentIsTarget(run[i].core, c); }
  }

  lemma CurrentIsTarget(k: Core, c: Ref)
    requires Current(k, c)
    ensures c in NewCloser(k).todo
  {
    assert k.entries[k.ctls[c].run].ctl == c;
  }

  lemma NobodyHeld(s: State, n: nat, targets: set<Ref>)
    requires Inv(s) && Shutting(s, n, targets) && s.threads[Closer(n)].pc.Done?
    ensures s.core.entries == map[] && (forall c :: c in targets ==> Handled(s.core, c))
  {
    hide CoreOk, DomainOk, Exclusive, ThreadsOk, Ending, Current;
    InvParts(s);
    hide Inv;
    forall r | r in s.core.entries ensures Current(s.core, s.core.entries[r].ctl) {
      EntriesAreCurrent(s.core, r);
    }
    assert forall c :: c in targets ==> !Current(s.core, c);
    assert forall r :: r !in s.core.entries;
  }
}

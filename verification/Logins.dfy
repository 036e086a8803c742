/** Every login can succeed: the handler's way from its first read to the running control. */
module Logins {
  import opened Options
  import opened Lifecycle
  import opened Protocol
  import opened CoreInvariant
  import opened ThreadInvariant
  import opened StepInvariant
  import opened SoloSteps
  import opened Runs
  import opened Interrupts
  import opened Progress
  import opened Completion
  import opened Settling
  import Registry
  import Names

  lemma HandlerFacts(s: State, c: Ref)
    requires Inv(s) && Handler(c) in s.threads
    ensures CoreOk(s.core) && s.threads[Handler(c)].ctl == c && c in s.core.ctls
    ensures HandlerOk(s.core, c, s.threads[Handler(c)].pc)
    ensures SeenOk(s.core, c, s.threads[Handler(c)].pc)
  {
    hide CoreOk, DomainOk, Exclusive, ThreadsOk, SeenOk;
    ThreadHolds(s, Handler(c));
    InvParts(s);
    assert c in s.core.ctls;
    hide Inv, HandlerOk;
  }

  lemma HandlerReady(s: State, c: Ref)
    requires Handler(c) in s.threads && s.threads[Handler(c)].ctl == c && HandlerOk(s.core, c, s.threads[Handler(c)].pc)
    requires SeenOk(s.core, c, s.threads[Handler(c)].pc) && !s.threads[Handler(c)].pc.Done?
    ensures Ready(s, Handler(c), 0)
  {
    hide Current, Holds, SameGate, GateIfCurrent;
  }

  /** The next section of a handler that is not blocked. */
  lemma HandlerStep(s0: State, s: State, c: Ref, now: int) returns (s': State)
    requires On(s0, s) && Handler(c) in s.threads && OthersCalm(s, Handler(c)) && !s.threads[Handler(c)].pc.Done?
    requires s.threads[Handler(c)].pc.WaitBarrier? ==> BarrierPassed(s.core, c)
    ensures Ready(s, Handler(c), 0) && s' == StepOf(s, Handler(c), true, 0, now) && On(s0, s')
    ensures s.threads[Handler(c)].ctl == c && c in s.core.ctls && CoreOk(s.core)
  {
    hide Leads, InterruptsOk, Inv, CoreOk, OthersCalm, SeenOk, HandlerOk, StepOf, Ready, BarrierPassed;
    HandlerFacts(s, c);
    HandlerReady(s, c);
    hide On;
    if !s.threads[Handler(c)].pc.WaitBarrier? {
      hide Unblocked;
      AloneIsUnblocked(s, Handler(c));
    }
    s' := StepOn(s0, s, Handler(c), now);
  }

  /** The handler moved to `pc` and nothing else changed. */
  ghost predicate Moved(s: State, s': State, c: Ref, pc: Pc) {
    Handler(c) in s.threads && s' == Goto(s, Handler(c), pc)
  }

  lemma MovedCalm(s: State, s': State, c: Ref, pc: Pc)
    requires OthersCalm(s, Handler(c)) && Moved(s, s', c, pc)
    ensures OthersCalm(s', Handler(c)) && Handler(c) in s'.threads && s'.threads[Handler(c)].pc == pc
    ensures s'.core == s.core
    ensures s'.threads[Handler(c)].ctl == s.threads[Handler(c)].ctl
  {
    CalmStays(s, s', Handler(c));
  }

  /** A section that only moves the handler on. */
  lemma Walk(s0: State, s: State, c: Ref, pc: Pc) returns (s': State)
    requires On(s0, s) && Handler(c) in s.threads && OthersCalm(s, Handler(c)) && s.threads[Handler(c)].ctl == c
    requires var here := s.threads[Handler(c)].pc;
             || (here.Read? && pc == AfterRead(s.core, Handler(c), s.threads[Handler(c)], here.kind))
             || (here.WantGate? && pc == AfterGate(here.kind, here.seen))
             || (here.Recheck? && pc == AfterRecheck(s.core, Handler(c), s.threads[Handler(c)], here.kind, here.seen))
             || (here.WantMgr? && pc == InMgr(here.kind, here.maybe))
    ensures On(s0, s') && Moved(s, s', c, pc) && OthersCalm(s', Handler(c))
    ensures Handler(c) in s'.threads && s'.threads[Handler(c)].pc == pc && s'.core == s.core
    ensures s'.threads[Handler(c)].ctl == c
  {
    hide On, OthersCalm, AfterRead, AfterGate, AfterRecheck, CoreOk, Ready;
    s' := HandlerStep(s0, s, c, 0);
    assert Moved(s, s', c, pc);
    MovedCalm(s, s', c, pc);
  }

  /** From the first read to the section: a current, usable entry is still there at each look. */
  lemma WalkToSection(s0: State, s: State, c: Ref, kind: Kind) returns (s': State)
    requires On(s0, s) && Handler(c) in s.threads && OthersCalm(s, Handler(c)) && s.threads[Handler(c)].ctl == c
    requires s.threads[Handler(c)].pc == Read(kind) && (kind.Activate? || kind.Login?)
    requires !s.core.closed && Current(s.core, c)
    ensures On(s0, s') && OthersCalm(s', Handler(c)) && Handler(c) in s'.threads && s'.core == s.core
    ensures var seen := SeenOf(s.core.entries[s.core.ctls[c].run]);
            var pc := if kind.Login? then HaveRun(kind, seen) else InMgr(kind, Some(seen));
            s'.threads[Handler(c)] == s.threads[Handler(c)].(pc := pc)
  {
    hide On, OthersCalm;
    var seen := SeenOf(s.core.entries[s.core.ctls[c].run]);
    var s1 := Walk(s0, s, c, WantGate(kind, seen));
    var s2 := Walk(s0, s1, c, Recheck(kind, seen));
    if kind.Login? {
      s' := Walk(s0, s2, c, HaveRun(kind, seen));
    } else {
      var s3 := Walk(s0, s2, c, WantMgr(kind, Some(seen)));
      s' := Walk(s0, s3, c, InMgr(kind, Some(seen)));
    }
  }

  // ----- Admission -----

  /** The control is admitted and current, and the rest of the login lies ahead. */
  predicate Queued(k: Core, k': Core, c: Ref) {
    && c in k.ctls && Current(k', c) && !k'.closed && k'.reg == k.reg
    && k'.ctls[c].state.Pending? && k'.ctls[c].run == k.ctls[c].run && k'.ctls[c].login == k.ctls[c].login
  }

  lemma FirstQueued(k: Core, c: Ref)
    requires c in k.ctls && !k.closed
    ensures Queued(k, FirstAdd(k, c), c)
  {
  }

  lemma ReplacingQueued(k: Core, c: Ref)
    requires CoreOk(k) && c in k.ctls && k.ctls[c].run in k.entries && !k.closed && k.ctls[c].state.Created?
    ensures var d := k.entries[k.ctls[c].run].ctl;
            && d in k.ctls && d != c && Queued(k, ReplacingAdd(k, c), c)
            && forall y :: Queued(k, SetCtl(ReplacingAdd(k, c), d, y), c)
  {
    hide CtlsOk, IdsDistinct, RegistryOk, HandoffOk, Names.Inv;
    assert EntryOk(k, k.ctls[c].run);
    hide MarkReplaced;
  }

  lemma ChangedCalm(s: State, s': State, c: Ref)
    requires OthersCalm(s, Handler(c)) && Handler(c) in s.threads && Handler(c) in s'.threads
    requires s'.threads == s.threads[Handler(c) := s'.threads[Handler(c)]]
    ensures OthersCalm(s', Handler(c))
  {
    CalmStays(s, s', Handler(c));
  }

  lemma AddFirstLogin(s0: State, s: State, c: Ref) returns (s': State)
    requires On(s0, s) && Handler(c) in s.threads && OthersCalm(s, Handler(c)) && s.threads[Handler(c)].ctl == c
    requires s.threads[Handler(c)].pc == Read(Add) && c in s.core.ctls && s.core.ctls[c].state.Created?
    requires !s.core.closed
    requires s.core.ctls[c].run !in s.core.entries
    ensures On(s0, s') && OthersCalm(s', Handler(c)) && Handler(c) in s'.threads
    ensures s'.threads[Handler(c)] == s.threads[Handler(c)].(pc := WaitBarrier) && Queued(s.core, s'.core, c)
  {
    hide On, OthersCalm, CoreOk, Queued;
    var s1 := Walk(s0, s, c, WantMgr(Add, None));
    var s2 := Walk(s0, s1, c, InMgr(Add, None));
    s' := HandlerStep(s0, s2, c, 0);
    FirstQueued(s.core, c);
    hide FirstAdd;
    ChangedCalm(s2, s', c);
  }

  lemma AddNextLogin(s0: State, s: State, c: Ref) returns (s': State)
    requires On(s0, s) && Handler(c) in s.threads && OthersCalm(s, Handler(c)) && s.threads[Handler(c)].ctl == c
    requires s.threads[Handler(c)].pc == Read(Add) && c in s.core.ctls && s.core.ctls[c].state.Created?
    requires !s.core.closed
    requires s.core.ctls[c].run in s.core.entries
    ensures On(s0, s') && OthersCalm(s', Handler(c)) && Handler(c) in s'.threads
    ensures s'.threads[Handler(c)] == s.threads[Handler(c)].(pc := WaitBarrier) && Queued(s.core, s'.core, c)
  {
    hide On, OthersCalm, CoreOk, Queued, Unchanged, ReplacingAdd, MarkReplaced;
    var seen := SeenOf(s.core.entries[s.core.ctls[c].run]);
    var s1 := Walk(s0, s, c, WantGate(Add, seen));
    var s2 := Walk(s0, s1, c, WantMgr(Add, Some(seen)));
    var s3 := Walk(s0, s2, c, InMgr(Add, Some(seen)));
    var s4 := Replace(s0, s3, c);
    s' := HandlerStep(s0, s4, c, 0);
    var d := s4.threads[Handler(c)].pc.prev;
    assert s' == NotifyStep(s4, Handler(c), d);
    QueuedInterrupted(s.core, SetCtl(s4.core, d, MarkReplaced(s4.core.ctls[d])), s'.core, c);
    ChangedCalm(s4, s', c);
  }

  lemma QueuedInterrupted(k: Core, k1: Core, k2: Core, c: Ref)
    requires Queued(k, k1, c) && k2 == k1.(cut := k2.cut)
    ensures Queued(k, k2, c)
  {
  }

  /** The section of Add that replaces the current generation. */
  lemma Replace(s0: State, s: State, c: Ref) returns (s': State)
    requires On(s0, s) && Handler(c) in s.threads && OthersCalm(s, Handler(c)) && s.threads[Handler(c)].ctl == c
    requires c in s.core.ctls && s.core.ctls[c].state.Created? && !s.core.closed && s.core.ctls[c].run in s.core.entries
    requires s.threads[Handler(c)].pc == InMgr(Add, Some(SeenOf(s.core.entries[s.core.ctls[c].run])))
    ensures On(s0, s') && OthersCalm(s', Handler(c)) && Handler(c) in s'.threads
    ensures var d := s.core.entries[s.core.ctls[c].run].ctl;
            && d in s'.core.ctls && s'.threads[Handler(c)] == s.threads[Handler(c)].(pc := Notify(d))
            && forall y :: Queued(s.core, SetCtl(s'.core, d, y), c)
  {
    hide On, OthersCalm, CoreOk, Queued;
    s' := HandlerStep(s0, s, c, 0);
    ReplacingQueued(s.core, c);
    var d := s.core.entries[s.core.ctls[c].run].ctl;
    assert s'.core == ReplacingAdd(s.core, c) && d in s'.core.ctls;
    hide ReplacingAdd;
    ChangedCalm(s, s', c);
  }

  // ----- The handoff -----

  lemma FinishedWorkerIsDone(s: State, b: Ref)
    requires Inv(s) && Worker(b) in s.threads && s.threads[Worker(b)].pc.Done?
    ensures b in s.core.ctls && s.core.ctls[b].doneCloses > 0
  {
    hide CoreOk, DomainOk, Exclusive, ThreadsOk, SeenOk, Ok;
    ThreadHolds(s, Worker(b));
    InvParts(s);
    CtlHolds(s.core, b);
    ClosedMeansDone(s.core.ctls[b]);
    hide Inv;
  }

  lemma NotCurrent(k: Core, b: Ref, c: Ref)
    requires Current(k, c) && b in k.ctls && k.ctls[b].run == k.ctls[c].run && k.ctls[b].id < k.ctls[c].id
    ensures b != c && !Current(k, b)
  {
  }

  lemma AllCalm(s: State, c: Ref, t: Tid)
    requires OthersCalm(s, Handler(c)) && Handler(c) in s.threads && Calm(s.threads[Handler(c)].pc)
    ensures OthersCalm(s, t)
  {
  }

  lemma NotifierIsHandler(s: State, u: Tid)
    requires Inv(s) && u in s.threads && s.threads[u].pc.Notify?
    ensures u == Handler(s.threads[u].ctl)
  {
    hide CoreOk, DomainOk, Exclusive, ThreadsOk;
    ThreadHolds(s, u);
    hide Inv, SeenOk, HandlerOk;
  }

  /** A handler that has replaced `b` interrupts it. */
  lemma NotifyNow(s0: State, s: State, u: Tid, b: Ref) returns (s': State)
    requires On(s0, s) && u in s.threads && s.threads[u].pc == Notify(b) && OthersCalm(s, u)
    ensures On(s0, s') && s' == Interrupt(Goto(s, u, WaitBarrier), b)
  {
    hide On, OthersCalm, NotifyStep, CoreOk, Ready, BarrierPassed;
    NotifierStep(s0, s, u, b);
    s' := HandlerStep(s0, s, s.threads[u].ctl, 0);
    assert s' == NotifyStep(s, u, b);
  }

  lemma NotifierStep(s0: State, s: State, u: Tid, b: Ref)
    requires On(s0, s) && u in s.threads && s.threads[u].pc == Notify(b)
    ensures u == Handler(s.threads[u].ctl) && b in s.core.ctls
    ensures NotifyStep(s, u, b) == Interrupt(Goto(s, u, WaitBarrier), b)
  {
    hide Leads, InterruptsOk, Inv, NotifyStep;
    NotifierIsHandler(s, u);
    NotifyStepOk(s, u, b);
  }

  /** The predecessor is interrupted, if need be by letting its replacer get on. */
  lemma CutPredecessor(s0: State, s: State, c: Ref, b: Ref) returns (s': State)
    requires On(s0, s) && OthersCalm(s, Handler(c)) && Handler(c) in s.threads
    requires s.threads[Handler(c)] == Thr(WaitBarrier, c, {})
    requires c in s.core.ctls && s.core.ctls[c].barrier == Some(b)
    ensures On(s0, s') && OthersCalm(s', Handler(c)) && Handler(c) in s'.threads
    ensures s'.threads[Handler(c)] == Thr(WaitBarrier, c, {})
    ensures s'.core == s.core.(cut := s'.core.cut) && ReadFails(s'.core, b) && s'.threads.Keys == s.threads.Keys
  {
    hide Leads, Inv, OthersCalm, EndOk, BarrierEnds, Ending;
    if ReadFails(s.core, b) {
      s' := s;
    } else {
      assert BarrierEnds(s.core, c) && EndOk(s, b);
      BarrierIsEnding(s.core, c);
      var u := Interrupter(s, b);
      AllCalm(s, c, u);
      hide On;
      s' := NotifyNow(s0, s, u, b);
      CalmStays(s, s', u);
      CalmStaysFor(s, s', u, c);
    }
  }

  lemma CalmStaysFor(s: State, s': State, u: Tid, c: Ref)
    requires OthersCalm(s, Handler(c)) && u in s.threads && u in s'.threads
    requires s'.threads == s.threads[u := s'.threads[u]]
    requires Calm(s'.threads[u].pc)
    ensures OthersCalm(s', Handler(c))
  {
  }

  /** The barrier can be made to open. */
  lemma OpenBarrier(s0: State, s: State, c: Ref) returns (s': State)
    requires On(s0, s) && OthersCalm(s, Handler(c)) && Handler(c) in s.threads
    requires s.threads[Handler(c)] == Thr(WaitBarrier, c, {})
    requires Current(s.core, c)
    ensures On(s0, s') && OthersCalm(s', Handler(c)) && Handler(c) in s'.threads
    ensures s'.threads[Handler(c)] == Thr(WaitBarrier, c, {})
    ensures BarrierPassed(s'.core, c) && c in s'.core.ctls && s'.core.ctls[c] == s.core.ctls[c]
    ensures s'.core.closed == s.core.closed && s'.core.reg == s.core.reg && s'.core.entries == s.core.entries
  {
    hide Leads, InterruptsOk, Inv, OthersCalm;
    if BarrierPassed(s.core, c) {
      s' := s;
    } else {
      BarrierHasWorker(s, Handler(c));
      var b := s.core.ctls[c].barrier.value;
      NotCurrent(s.core, b, c);
      hide On, ReadFails;
      var s1 := CutPredecessor(s0, s, c, b);
      AllCalm(s1, c, Worker(b));
      assert !Current(s1.core, b);
      hide Current;
      s' := WorkerCanFinish(s0, s1, b);
      FinishedBy(s0, s', b);
      BarrierCalm(s1, s', b, c);
    }
  }

  lemma FinishedBy(s0: State, s: State, b: Ref)
    requires On(s0, s) && Worker(b) in s.threads && s.threads[Worker(b)].pc.Done?
    ensures b in s.core.ctls && s.core.ctls[b].doneCloses > 0
  {
    hide Leads, InterruptsOk, Inv;
    FinishedWorkerIsDone(s, b);
  }

  lemma BarrierCalm(s: State, s': State, b: Ref, c: Ref)
    requires OthersCalm(s, Handler(c)) && Alone(s, s', b) && s'.threads[Worker(b)].pc.Done?
    ensures OthersCalm(s', Handler(c))
  {
  }

  /** Past the barrier: the control may now be activated. */
  lemma PassHandoff(s0: State, s: State, c: Ref) returns (s': State)
    requires On(s0, s) && OthersCalm(s, Handler(c)) && Handler(c) in s.threads
    requires s.threads[Handler(c)] == Thr(WaitBarrier, c, {})
    requires Current(s.core, c) && !s.core.closed && s.core.ctls[c].state.Pending?
    ensures On(s0, s') && OthersCalm(s', Handler(c)) && Handler(c) in s'.threads
    ensures s'.threads[Handler(c)] == Thr(Read(Activate), c, {})
    ensures Queued(s.core, s'.core, c)
  {
    hide On, OthersCalm, BarrierPassed, CoreOk, Ready;
    var s1 := OpenBarrier(s0, s, c);
    s' := HandlerStep(s0, s1, c, 0);
    assert s' == PassBarrier(s1, Handler(c));
    ChangedCalm(s1, s', c);
  }

  // ----- Activation and the answer -----

  lemma EntryIsOwn(k: Core, c: Ref)
    requires CoreOk(k) && Current(k, c)
    ensures OwnsEntry(k, c, SeenOf(k.entries[k.ctls[c].run]))
  {
    hide CtlsOk, IdsDistinct, RegistryOk, HandoffOk, Names.Inv;
    assert EntryOk(k, k.ctls[c].run);
  }

  lemma ActivateLogin(s0: State, s: State, c: Ref, now: int) returns (s': State)
    requires On(s0, s) && OthersCalm(s, Handler(c)) && Handler(c) in s.threads
    requires s.threads[Handler(c)] == Thr(Read(Activate), c, {})
    requires Current(s.core, c) && !s.core.closed && s.core.ctls[c].state.Pending?
    requires !Registry.Conflicts(s.core.reg, s.core.ctls[c].login, s.core.ctls[c].run)
    ensures On(s0, s') && OthersCalm(s', Handler(c)) && Handler(c) in s'.threads
    ensures s'.threads[Handler(c)] == Thr(Read(Login), c, {})
    ensures Current(s'.core, c) && !s'.core.closed && CanStart(s'.core.ctls[c])
    ensures s'.core.ctls[c].run == s.core.ctls[c].run
  {
    hide On, OthersCalm, Registry.Conflicts, Registry.Registered, CoreOk, OwnsEntry;
    var s1 := WalkToSection(s0, s, c, Activate);
    s' := HandlerStep(s0, s1, c, now);
    EntryIsOwn(s.core, c);
    ChangedCalm(s1, s', c);
  }

  lemma AnswerLogin(s0: State, s: State, c: Ref) returns (s': State)
    requires On(s0, s) && OthersCalm(s, Handler(c)) && Handler(c) in s.threads
    requires s.threads[Handler(c)] == Thr(Read(Login), c, {})
    requires Current(s.core, c) && !s.core.closed && CanStart(s.core.ctls[c])
    ensures On(s0, s') && Current(s'.core, c) && s'.core.ctls[c].state.Running? && Worker(c) in s'.threads
    ensures Handler(c) in s'.threads && s'.threads[Handler(c)].pc == Done(true)
    ensures s'.core.ctls[c].run == s.core.ctls[c].run
  {
    hide On, OthersCalm, CoreOk;
    var s1 := WalkToSection(s0, s, c, Login);
    var s2 := HandlerStep(s0, s1, c, 0);
    EntryIsOwn(s.core, c);
    assert s2 == Goto(s1, Handler(c), Writing(s1.threads[Handler(c)].pc.seen));
    ChangedCalm(s1, s2, c);
    s' := HandlerStep(s0, s2, c, 0);
  }

  /** The control of the login is current, running and answered. */
  ghost predicate Served(s: State, c: Ref, run: string) {
    && Current(s.core, c) && s.core.ctls[c].run == run && s.core.ctls[c].state.Running?
    && Worker(c) in s.threads && Handler(c) in s.threads && s.threads[Handler(c)].pc == Done(true)
  }

  /** Every login can succeed: from every reachable state with an open manager, the lock
      holders can let go first, and then a new login that meets no client-ID conflict can be
      served by moves of the server alone, whatever generation of its run was there before
      and whatever that one still had to do. A login without a client ID meets no conflict. */
  lemma EveryLoginCanSucceed(s: State, c: Ref, run: string, login: Registry.Login, poolCount: nat, now: int)
    returns (s1: State, s': State)
    requires Reachable(s) && !s.core.closed && Enabled(s, NewLogin(c, run, login, poolCount))
    ensures Leads(s, s1) && Holders(s1) == {} && (Holders(s) == {} ==> s1 == s)
    ensures login.clientID == "" || !Registry.Conflicts(s1.core.reg, login, run) ==> Leads(s1, s') && Served(s', c, run)
  {
    hide Reachable, Inv, InterruptsOk, Leads;
    ReachableOk(s);
    ReachableInterrupts(s);
    StartOn(s);
    hide On, Holders;
    s1 := Settle(s, s);
    OnLeads(s, s1);
    s' := s1;
    if !Registry.Conflicts(s1.core.reg, login, run) {
      hide Registry.Conflicts;
      Arrival(s, s1, c, run, login, poolCount);
      s' := ServeNew(s1, c, run, login, poolCount, now);
    }
  }

  /** What was free for the login is still free. */
  lemma Arrival(s: State, s1: State, c: Ref, run: string, login: Registry.Login, poolCount: nat)
    requires On(s, s1) && SameOutside(s, s1) && Enabled(s, NewLogin(c, run, login, poolCount))
    ensures Enabled(s1, NewLogin(c, run, login, poolCount)) && On(s1, s1)
  {
    hide Leads, InterruptsOk, CoreOk, Exclusive, ThreadsOk;
    InvParts(s1);
    hide Inv;
    StartOn(s1);
  }

  lemma ServeNew(s: State, c: Ref, run: string, login: Registry.Login, poolCount: nat, now: int)
    returns (s': State)
    requires On(s, s) && !s.core.closed && Holders(s) == {} && Enabled(s, NewLogin(c, run, login, poolCount))
    requires !Registry.Conflicts(s.core.reg, login, run)
    ensures Leads(s, s') && Served(s', c, run)
  {
    hide On, Registry.Conflicts;
    var s1 := Act(s, s, NewLogin(c, run, login, poolCount));
    NewcomerCalm(s, s1, c);
    hide OthersCalm, Holders;
    s' := Serve(s, s1, c, now);
    OnLeads(s, s');
  }

  lemma NewcomerCalm(s: State, s1: State, c: Ref)
    requires Holders(s) == {} && Handler(c) in s1.threads
    requires s1.threads == s.threads[Handler(c) := s1.threads[Handler(c)]]
    ensures OthersCalm(s1, Handler(c))
  {
    forall u | u in s1.threads && u != Handler(c) ensures Calm(s1.threads[u].pc) {
      assert u !in Holders(s);
    }
  }

  /** From the fresh control to the running one. */
  lemma Serve(s0: State, s: State, c: Ref, now: int) returns (s': State)
    requires On(s0, s) && OthersCalm(s, Handler(c)) && Handler(c) in s.threads
    requires s.threads[Handler(c)] == Thr(Read(Add), c, {})
    requires c in s.core.ctls && s.core.ctls[c].state.Created? && !s.core.closed
    requires !Registry.Conflicts(s.core.reg, s.core.ctls[c].login, s.core.ctls[c].run)
    ensures On(s0, s') && Current(s'.core, c) && s'.core.ctls[c].state.Running? && Worker(c) in s'.threads
    ensures Handler(c) in s'.threads && s'.threads[Handler(c)].pc == Done(true)
    ensures s'.core.ctls[c].run == s.core.ctls[c].run
  {
    hide On, OthersCalm, Registry.Conflicts;
    var s1: State;
    if s.core.ctls[c].run in s.core.entries { s1 := AddNextLogin(s0, s, c); } else { s1 := AddFirstLogin(s0, s, c); }
    var s2 := PassHandoff(s0, s1, c);
    var s3 := ActivateLogin(s0, s2, c, now);
    s' := AnswerLogin(s0, s3, c);
  }

  lemma OnLeads(s0: State, s: State)
    requires On(s0, s)
    ensures Leads(s0, s)
  {
    hide Leads, InterruptsOk, Inv;
  }
}

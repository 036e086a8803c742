/** Deadlock freedom: who can wait for whom among run gates, the manager lock,
    life-cycle locks, handoff barriers and read loops that must be interrupted. */
module Progress {
  import opened Options
  import opened Lifecycle
  import opened Protocol
  import opened CoreInvariant
  import opened ThreadInvariant
  import opened StepInvariant
  import opened CommitSteps
  import opened Runs
  import opened Interrupts
  import Names

  /** Thread `t` needs, for its next section, something that `u` holds or has yet to do. */
  ghost predicate WaitsFor(s: State, t: Tid, u: Tid) {
    && t in s.threads && u in s.threads
    && var k, thr, other := s.core, s.threads[t], s.threads[u];
    match thr.pc
    case Read(_) => other.pc.InMgr?
    case WantGate(_, seen) => GateOf(other.pc) == Some(seen.gate)
    case Recheck(_, _) => other.pc.InMgr?
    case WantMgr(_, _) => other.pc.InMgr?
    case InMgr(kind, maybe) => other.pc.Writing? && NeedsLifecycle(k, thr.ctl, kind, maybe, other.ctl)
    case HaveRun(_, _) => other.pc.Writing? && other.ctl == thr.ctl
    case Notify(prev) => other.pc.Writing? && other.ctl == prev
    case WaitBarrier => thr.ctl in k.ctls && k.ctls[thr.ctl].barrier.Some? && u == Worker(k.ctls[thr.ctl].barrier.value)
                        && !BarrierPassed(k, thr.ctl)
    case CloseTarget => other.pc.Writing? && other.ctl == thr.ctl
    case Serving => other.pc == Notify(thr.ctl) && Listening(s, t)
    case MarkClosing => other.pc.Writing? && other.ctl == thr.ctl
    case Finish => other.pc.Writing? && other.ctl == thr.ctl
    case _ => false
  }

  /** A worker whose read loop waits for the client, with no handler at work. */
  predicate Listening(s: State, t: Tid) {
    && t in s.threads && s.threads[t].pc.Serving? && !ReadFails(s.core, s.threads[t].ctl)
    && s.threads[t].ctl in s.core.names.act && s.core.names.act[s.threads[t].ctl].Idle?
  }

  /** A worker that listens for its client and has no reason to stop. */
  predicate Resting(s: State, t: Tid) {
    Listening(s, t) && !Ending(s.core, s.threads[t].ctl)
  }

  ghost predicate NeedsLifecycle(k: Core, c: Ref, kind: Kind, maybe: Option<Seen>, d: Ref) {
    || ((kind.Add? || kind.Activate?) && d == c)
    || (kind.Add? && maybe.Some? && AddCommits(k, c, maybe) && k.entries[k.ctls[c].run].ctl == d)
  }

  /** The lock order: barrier, then run gate, then manager lock or interrupt, then life-cycle lock. */
  function Level(pc: Pc): nat {
    match pc
    case WaitBarrier => 4
    case WantGate(_, _) => 3
    case Read(_) => 2
    case Serving => 2
    case Recheck(_, _) => 2
    case WantMgr(_, _) => 2
    case InMgr(_, _) => 1
    case HaveRun(_, _) => 1
    case Notify(_) => 1
    case CloseTarget => 1
    case MarkClosing => 1
    case Finish => 1
    case _ => 0
  }

  /** Waiting always goes down the lock order. */
  lemma WaitingDescends(s: State, t: Tid, u: Tid)
    requires Inv(s) && WaitsFor(s, t, u)
    ensures Level(s.threads[u].pc) < Level(s.threads[t].pc)
  {
    hide CoreOk, DomainOk, Exclusive, ThreadsOk;
    ThreadHolds(s, u);
    hide Inv, SeenOk, BarrierPassed, NeedsLifecycle, Listening;
  }

  ghost predicate IsWaitChain(s: State, chain: seq<Tid>) {
    && |chain| > 0 && (forall m :: 0 <= m < |chain| ==> chain[m] in s.threads)
    && forall m :: 0 <= m < |chain| - 1 ==> WaitsFor(s, chain[m], chain[m + 1])
  }

  lemma {:induction false} ChainDescends(s: State, chain: seq<Tid>, m: nat)
    requires Inv(s) && IsWaitChain(s, chain) && m < |chain|
    ensures Level(s.threads[chain[m]].pc) + m <= Level(s.threads[chain[0]].pc)
    decreases m
  {
    hide Inv, WaitsFor, Level;
    if m > 0 {
      ChainDescends(s, chain, m - 1);
      assert WaitsFor(s, chain[m - 1], chain[m - 1 + 1]);
      WaitingDescends(s, chain[m - 1], chain[m]);
    }
  }

  /** No reachable state has a cycle of waiting threads, and no chain of waiting
      threads is longer than the four levels of the lock order. */
  lemma NoWaitCycle(run: seq<State>, i: nat, chain: seq<Tid>)
    requires IsRun(run) && i < |run| && IsWaitChain(run[i], chain)
    ensures |chain| <= 5 && (|chain| > 1 ==> chain[0] != chain[|chain| - 1])
  {
    hide IsRun, Inv, WaitsFor;
    RunOk(run, i);
    ChainDescends(run[i], chain, |chain| - 1);
  }

  // ----- The holder of the manager lock is never blocked -----

  lemma WriterHoldsGate(s: State, u: Tid)
    requires Inv(s) && u in s.threads && s.threads[u].pc.Writing?
    ensures u == Handler(s.threads[u].ctl) && s.threads[u].ctl in s.core.ctls
    ensures var c := s.threads[u].ctl;
            && Current(s.core, c) && s.core.ctls[c].state.Pending? && s.core.ctls[c].activated
            && GateOf(s.threads[u].pc) == Some(s.core.entries[s.core.ctls[c].run].gate)
  {
    hide CoreOk, DomainOk, Exclusive, ThreadsOk;
    ThreadHolds(s, u);
    hide Inv, WorkerOk, CloserOk, CarrierOk;
  }

  /** Nobody writes a response for a control whose life-cycle lock the manager's holder needs. */
  lemma ManagerHolderNeverBlocked(run: seq<State>, i: nat, t: Tid)
    requires IsRun(run) && i < |run| && t in run[i].threads && run[i].threads[t].pc.InMgr?
    ensures Unblocked(run[i], t)
  {
    hide IsRun, Inv, Unblocked;
    RunOk(run, i);
    HolderUnblocked(run[i], t);
  }

  lemma HolderUnblocked(s: State, t: Tid)
    requires Inv(s) && t in s.threads && s.threads[t].pc.InMgr?
    ensures Unblocked(s, t)
  {
    hide CoreOk, DomainOk, ThreadsOk, ThreadOk, Inv;
    if !Unblocked(s, t) {
      hide Unblocked, WaitsFor;
      var u := LifecycleCause(s, t);
      WriterIsElsewhere(s, t, u);
    }
  }

  lemma WriterIsElsewhere(s: State, t: Tid, u: Tid)
    requires Inv(s) && t in s.threads && s.threads[t].pc.InMgr?
    ensures !WaitsFor(s, t, u)
  {
    hide CoreOk, DomainOk, ThreadsOk, ThreadOk;
    var k, thr := s.core, s.threads[t];
    ThreadHolds(s, t);
    InvParts(s);
    if u in s.threads && s.threads[u].pc.Writing? { WriterHoldsGate(s, u); }
    if thr.pc.kind.Add? {
      AdderFacts(k, t, thr, thr.pc.maybe);
      if thr.pc.maybe.Some? && AddCommits(k, thr.ctl, thr.pc.maybe) {
        ReplacingFacts(s, t, thr.pc.maybe.value);
      }
    } else if thr.pc.kind.Activate? {
      SeenEntry(k, t, thr);
      ActivatorFacts(k, t, thr, thr.pc.maybe.value);
    }
    hide Inv, GateOf;
  }

  lemma SeenEntry(k: Core, t: Tid, thr: Thr)
    requires ThreadOk(k, t, thr) && thr.pc.InMgr? && !thr.pc.kind.Add?
    ensures thr.pc.maybe.Some?
  {
    hide HandlerOk, WorkerOk, CloserOk, CarrierOk, Holds;
  }

  // ----- Whoever is blocked waits for somebody, and at the end of the chain somebody can move -----

  /** The barrier of a waiting handler belongs to an earlier control of the same
      run, which has a worker that is still at work. */
  lemma BarrierHasWorker(s: State, t: Tid)
    requires Inv(s) && t in s.threads && s.threads[t].pc.WaitBarrier? && !BarrierPassed(s.core, s.threads[t].ctl)
    ensures var c := s.threads[t].ctl;
            && c in s.core.ctls && s.core.ctls[c].barrier.Some?
            && var b := s.core.ctls[c].barrier.value;
            && b in s.core.ctls && s.core.ctls[b].id < s.core.ctls[c].id && s.core.ctls[b].run == s.core.ctls[c].run
            && Worker(b) in s.threads && s.threads[Worker(b)].ctl == b && !s.threads[Worker(b)].pc.Done?
  {
    hide CoreOk, Exclusive, ThreadsOk, Ok;
    var k, c := s.core, s.threads[t].ctl;
    ThreadHolds(s, t);
    InvParts(s);
    assert c in k.ctls;
    CtlHolds(k, c);
    var b := k.ctls[c].barrier.value;
    CtlHolds(k, b);
    ThreadHolds(s, Worker(b));
    hide SeenOk, Inv;
    ClosedMeansDone(k.ctls[b]);
  }

  /** In every reachable state, a handler blocked on its barrier waits for the working
      worker of an earlier control of its run. */
  lemma EveryBarrierHasWorker(run: seq<State>, i: nat, t: Tid)
    requires IsRun(run) && i < |run| && t in run[i].threads && run[i].threads[t].pc.WaitBarrier?
    requires !BarrierPassed(run[i].core, run[i].threads[t].ctl)
    ensures var k, c := run[i].core, run[i].threads[t].ctl;
            && c in k.ctls && k.ctls[c].barrier.Some?
            && var b := k.ctls[c].barrier.value;
            && b in k.ctls && k.ctls[b].id < k.ctls[c].id && k.ctls[b].run == k.ctls[c].run
            && Worker(b) in run[i].threads && !run[i].threads[Worker(b)].pc.Done?
  {
    hide IsRun, Inv, BarrierPassed;
    RunOk(run, i);
    BarrierHasWorker(run[i], t);
  }

  lemma ClosedMeansDone(x: Ctl)
    requires Ok(x)
    ensures x.state.Closed? ==> x.doneCloses > 0
  {
    hide PoolOk;
  }

  lemma BlockedHasCause(s: State, t: Tid) returns (u: Tid)
    requires Inv(s) && InterruptsOk(s) && t in s.threads && (!Unblocked(s, t) || Listening(s, t)) && !Resting(s, t)
    ensures WaitsFor(s, t, u) && !s.threads[u].pc.Done? && !Resting(s, u)
  {
    hide Inv, BarrierPassed, AddCommits, Ending, EndOk, BarrierEnds;
    var thr := s.threads[t];
    if Listening(s, t) {
      assert EndOk(s, thr.ctl);
      u := Interrupter(s, thr.ctl);
    } else if thr.pc.WaitBarrier? {
      BarrierHasWorker(s, t);
      assert BarrierEnds(s.core, thr.ctl);
      BarrierIsEnding(s.core, thr.ctl);
      u := Worker(s.core.ctls[thr.ctl].barrier.value);
    } else if thr.pc.WantGate? {
      u :| u in s.threads && GateOf(s.threads[u].pc) == Some(thr.pc.seen.gate);
    } else if thr.pc.Read? || thr.pc.Recheck? || thr.pc.WantMgr? {
      u :| u in s.threads && s.threads[u].pc.InMgr?;
    } else {
      u := LifecycleCause(s, t);
    }
  }

  lemma BarrierIsEnding(k: Core, c: Ref)
    requires BarrierEnds(k, c) && c in k.ctls && k.ctls[c].barrier.Some?
    ensures Ending(k, k.ctls[c].barrier.value)
  {
  }

  lemma Interrupter(s: State, c: Ref) returns (u: Tid)
    requires EndOk(s, c) && Ending(s.core, c) && !ReadFails(s.core, c)
    ensures u in s.threads && s.threads[u].pc == Notify(c)
  {
    u :| u in s.threads && s.threads[u].pc == Notify(c);
  }

  lemma LifecycleCause(s: State, t: Tid) returns (u: Tid)
    requires t in s.threads && !Unblocked(s, t)
    requires var pc := s.threads[t].pc; !pc.WaitBarrier? && !pc.WantGate? && !pc.Read? && !pc.Recheck? && !pc.WantMgr?
    ensures WaitsFor(s, t, u) && !s.threads[u].pc.Done?
  {
    hide BarrierPassed;
    var k, thr := s.core, s.threads[t];
    if thr.pc.InMgr? {
      if !((thr.pc.kind.Add? || thr.pc.kind.Activate?) ==> LifeFree(s, thr.ctl)) {
        u :| u in s.threads && s.threads[u].pc.Writing? && s.threads[u].ctl == thr.ctl;
      } else {
        u :| u in s.threads && s.threads[u].pc.Writing? && s.threads[u].ctl == k.entries[k.ctls[thr.ctl].run].ctl;
      }
    } else if thr.pc.Notify? {
      u :| u in s.threads && s.threads[u].pc.Writing? && s.threads[u].ctl == thr.pc.prev;
    } else {
      u :| u in s.threads && s.threads[u].pc.Writing? && s.threads[u].ctl == thr.ctl;
    }
  }

  /** A move the server makes by itself, without a message, a fault or a new connection from outside. */
  predicate Internal(a: Action) {
    a.Step? || (a.NameMove? && (a.move.Advance? || a.move.Sweep?))
  }

  /** A step of the thread, or of its control's proxy handlers, is enabled. */
  ghost predicate CanMove(s: State, u: Tid) {
    exists a :: Enabled(s, a) && Internal(a) && ((a.Step? && a.t == u) || (a.NameMove? && u == Worker(a.c)))
  }

  lemma UnblockedCanMove(s: State, u: Tid)
    requires Inv(s) && u in s.threads && Unblocked(s, u) && !s.threads[u].pc.Done? && !Listening(s, u)
    ensures CanMove(s, u)
  {
    hide CoreOk, DomainOk, Exclusive, ThreadsOk, Unblocked;
    var k, thr := s.core, s.threads[u];
    ThreadHolds(s, u);
    InvParts(s);
    if thr.pc.Serving? && !k.names.act[thr.ctl].Idle? {
      ReaderCanMove(k, u, thr);
      assert Enabled(s, NameMove(thr.ctl, Names.Advance));
    } else if thr.pc.ClosingProxies? && !k.names.act[thr.ctl].Swept? {
      SweeperCanMove(s, u);
    } else {
      var pick := if thr.todo == {} then 0 else var p :| p in thr.todo; p;
      ReadyToStep(k, s, u, pick);
      assert Enabled(s, Step(u, true, pick, 0));
    }
    hide Inv;
  }

  lemma ReadyToStep(k: Core, s: State, u: Tid, pick: Ref)
    requires k == s.core && u in s.threads && ThreadOk(k, u, s.threads[u]) && !s.threads[u].pc.Done?
    requires s.threads[u].pc.Serving? ==> ReadFails(k, s.threads[u].ctl)
    requires s.threads[u].pc.Serving? ==> s.threads[u].ctl in k.names.act ==> k.names.act[s.threads[u].ctl].Idle?
    requires s.threads[u].pc.ClosingProxies? ==> s.threads[u].ctl in k.names.act ==>
             k.names.act[s.threads[u].ctl].Swept?
    requires s.threads[u].todo != {} ==> pick in s.threads[u].todo
    ensures Ready(s, u, pick)
  {
    hide Current, Names.Reading, Names.InSweep;
  }

  lemma ReaderCanMove(k: Core, u: Tid, thr: Thr)
    requires CoreOk(k) && ThreadOk(k, u, thr) && thr.pc.Serving? && thr.ctl in k.names.act
    requires !k.names.act[thr.ctl].Idle?
    ensures u == Worker(thr.ctl) && Names.Enabled(k.names, thr.ctl, Names.Advance)
  {
    hide CoreOk, SeenOk;
    OwnerOkOf(k, thr.ctl);
    hide Names.OwnerOk;
  }

  lemma OwnerOkOf(k: Core, c: Ref)
    requires CoreOk(k) && c in k.names.act
    ensures Names.OwnerOk(k.names, c) && c in k.names.proxies
  {
    hide CtlsOk, IdsDistinct, EntriesOk, RegistryOk, HandoffOk, Names.Exact, Names.ManagerShares, Names.HoleShares;
    assert Names.OwnerOk(k.names, c);
    hide CoreOk;
  }

  lemma SweeperCanMove(s: State, u: Tid)
    requires Inv(s) && u in s.threads && s.threads[u].pc.ClosingProxies?
    requires s.threads[u].ctl in s.core.names.act && !s.core.names.act[s.threads[u].ctl].Swept?
    ensures CanMove(s, u)
  {
    hide CoreOk, DomainOk, Exclusive, ThreadsOk;
    var k, c := s.core, s.threads[u].ctl;
    ThreadHolds(s, u);
    InvParts(s);
    OwnerOkOf(k, c);
    assert u == Worker(c) && Names.InSweep(k.names.act[c]);
    hide Inv, ThreadOk;
    if k.names.act[c].Sweeping? {
      var p :| p in k.names.act[c].rest;
      assert Enabled(s, NameMove(c, Names.Sweep(p)));
    } else {
      assert Enabled(s, NameMove(c, Names.Advance));
    }
  }

  lemma {:induction false} ChainFrom(s: State, t: Tid) returns (chain: seq<Tid>)
    requires Inv(s) && InterruptsOk(s) && t in s.threads && !s.threads[t].pc.Done? && !Resting(s, t)
    ensures IsWaitChain(s, chain) && chain[0] == t && CanMove(s, chain[|chain| - 1])
    decreases Level(s.threads[t].pc)
  {
    hide Inv, WaitsFor, Unblocked, CanMove, Level, InterruptsOk, Listening, Resting;
    if Unblocked(s, t) && !Listening(s, t) {
      UnblockedCanMove(s, t);
      chain := [t];
    } else {
      var u := BlockedHasCause(s, t);
      assert u in s.threads by { hide *; WaitsForThreads(s, t, u); }
      WaitingDescends(s, t, u);
      var rest := ChainFrom(s, u);
      chain := [t] + rest;
    }
  }

  lemma WaitsForThreads(s: State, t: Tid, u: Tid)
    requires WaitsFor(s, t, u)
    ensures t in s.threads && u in s.threads
  {
    hide NeedsLifecycle, BarrierPassed, Listening;
  }

  /** Deadlock freedom: in every reachable state, following what an unfinished thread waits
      for leads, within the lock order, to a thread that can move by itself. Only a worker
      that listens for the client of a control nobody has replaced or closed is at rest. */
  lemma NoDeadlock(run: seq<State>, i: nat, t: Tid) returns (chain: seq<Tid>)
    requires IsRun(run) && i < |run| && t in run[i].threads && !run[i].threads[t].pc.Done? && !Resting(run[i], t)
    ensures IsWaitChain(run[i], chain) && chain[0] == t && |chain| <= 5
    ensures CanMove(run[i], chain[|chain| - 1])
  {
    hide IsRun, Inv, CanMove, IsWaitChain, InterruptsOk, Resting;
    RunOk(run, i);
    RunInterrupts(run, i);
    chain := ChainFrom(run[i], t);
    NoWaitCycle(run, i, chain);
  }
}

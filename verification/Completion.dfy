/** Continuations the server can take by itself: the worker of an interrupted control can
    finish, whatever it has left to do. */
module Completion {
  import opened Options
  import opened Lifecycle
  import opened Protocol
  import opened CoreInvariant
  import opened ThreadInvariant
  import opened StepInvariant
  import opened CommitSteps
  import opened Runs
  import opened Interrupts
  import opened Progress
  import Names

  // ----- Continuations -----

  /** A login arrives, or the server moves by itself; no client leaves and no heartbeat fails. */
  ghost predicate QuietNext(s: State, s': State) {
    exists a :: Enabled(s, a) && (Internal(a) || a.NewLogin?) && s' == Apply(s, a)
  }

  ghost predicate IsPath(p: seq<State>) {
    |p| > 0 && forall i :: 0 <= i < |p| - 1 ==> QuietNext(p[i], p[i + 1])
  }

  /** `s` can be reached from `s0` without any help from outside. */
  ghost predicate Leads(s0: State, s: State) {
    exists p :: IsPath(p) && p[0] == s0 && p[|p| - 1] == s
  }

  ghost predicate On(s0: State, s: State) {
    Leads(s0, s) && Inv(s) && InterruptsOk(s)
  }

  lemma StartOn(s: State)
    requires Inv(s) && InterruptsOk(s)
    ensures On(s, s)
  {
    hide Inv, InterruptsOk;
    assert IsPath([s]) && [s][0] == s;
  }

  lemma Act(s0: State, s: State, a: Action) returns (s': State)
    requires On(s0, s) && Enabled(s, a) && (Internal(a) || a.NewLogin?)
    ensures s' == Apply(s, a) && On(s0, s')
  {
    hide Inv, InterruptsOk, Enabled, Apply, Internal;
    var p :| IsPath(p) && p[0] == s0 && p[|p| - 1] == s;
    s' := Apply(s, a);
    var q := p + [s'];
    assert QuietNext(s, s');
    forall i | 0 <= i < |q| - 1 ensures QuietNext(q[i], q[i + 1]) {
      if i < |p| - 1 { assert q[i] == p[i] && q[i + 1] == p[i + 1]; }
    }
    assert IsPath(q) && q[0] == s0 && q[|q| - 1] == s';
    ActionOk(s, a);
    ActionKeepsInterrupts(s, a);
  }

  lemma StepOn(s0: State, s: State, t: Tid, now: int) returns (s': State)
    requires On(s0, s) && t in s.threads && Ready(s, t, 0) && Unblocked(s, t)
    ensures s' == StepOf(s, t, true, 0, now) && On(s0, s')
  {
    hide On, StepOf, Ready, Unblocked;
    s' := Act(s0, s, Step(t, true, 0, now));
  }

  // ----- One thread moves while the others hold no lock -----

  predicate Calm(pc: Pc) {
    GateOf(pc).None? && !pc.InMgr? && !pc.Writing?
  }

  ghost predicate OthersCalm(s: State, t: Tid) {
    forall u :: u in s.threads && u != t ==> Calm(s.threads[u].pc)
  }

  lemma FreeLocks(s: State, t: Tid, g: nat, c: Ref)
    requires OthersCalm(s, t) && t in s.threads
    ensures GateOf(s.threads[t].pc) != Some(g) ==> GateFree(s, g)
    ensures !s.threads[t].pc.InMgr? ==> MgrFree(s)
    ensures !s.threads[t].pc.Writing? ==> LifeFree(s, c)
  {
  }

  /** With the other threads calm, only a gate held by itself or a barrier can block a thread. */
  lemma AloneIsUnblocked(s: State, t: Tid)
    requires OthersCalm(s, t) && t in s.threads && !s.threads[t].pc.WaitBarrier?
    ensures Unblocked(s, t)
  {
    hide OthersCalm;
    var pc := s.threads[t].pc;
    FreeLocks(s, t, if pc.WantGate? then pc.seen.gate else 0, s.threads[t].ctl);
    if pc.Notify? { FreeLocks(s, t, 0, pc.prev); }
    if pc.InMgr? && pc.kind.Add? && pc.maybe.Some? && AddCommits(s.core, s.threads[t].ctl, pc.maybe) {
      FreeLocks(s, t, 0, s.core.entries[s.core.ctls[s.threads[t].ctl].run].ctl);
    }
    hide GateFree, MgrFree, LifeFree;
  }

  lemma CalmStays(s: State, s': State, t: Tid)
    requires OthersCalm(s, t) && t in s.threads && t in s'.threads && s'.threads == s.threads[t := s'.threads[t]]
    ensures OthersCalm(s', t)
  {
  }

  // ----- The worker of an interrupted control can finish -----

  /** How far a worker is from its end: by position, then within the position. */
  function PcRank(pc: Pc): nat {
    match pc
    case Spawned => 13
    case Serving => 12
    case MarkClosing => 11
    case CloseChan => 10
    case Draining => 9
    case ClosingProxies => 8
    case LeaveMetrics => 7
    case Read(_) => 6
    case WantGate(_, _) => 5
    case Recheck(_, _) => 4
    case WantMgr(_, _) => 3
    case InMgr(_, _) => 2
    case Finish => 1
    case _ => 0
  }

  /** The moves until the handler is idle, or until the sweep is over. */
  function ActRank(a: Names.Activity): nat {
    match a
    case Idle => 0
    case Checking(_) => 4
    case Claiming(_) => 3
    case Adding(_) => 2
    case RollingBack(_) => 1
    case Storing(_) => 1
    case Releasing(_, rest, _) => 3 * |rest| + 2
    case Deleting(_, rest, _) => 3 * |rest| + 1
    case Sweeping(rest) => 3 * |rest|
    case Swept => 0
  }

  function Inner(k: Core, c: Ref, pc: Pc): nat {
    if pc.Draining? && c in k.ctls then |k.ctls[c].pool|
    else if (pc.Serving? || pc.ClosingProxies?) && c in k.names.act then ActRank(k.names.act[c])
    else 0
  }

  lemma AfterCloseRank(rest: set<Names.Pxy>, sweep: bool)
    ensures ActRank(Names.AfterClose(rest, sweep)) <= 3 * |rest|
  {
  }

  lemma SweepRank(x: Names.Names, c: Ref, p: Names.Pxy)
    requires Names.Enabled(x, c, Names.Sweep(p))
    ensures c in Names.Next(x, c, Names.Sweep(p)).act
    ensures ActRank(Names.Next(x, c, Names.Sweep(p)).act[c]) < ActRank(x.act[c])
  {
    var rest := x.act[c].rest;
    assert |rest - {p}| == |rest| - 1;
  }

  lemma AdvanceRanks(x: Names.Names, c: Ref, m: Names.Move)
    requires Names.Enabled(x, c, m) && (m.Advance? || m.Sweep?)
    ensures c in Names.Next(x, c, m).act && ActRank(Names.Next(x, c, m).act[c]) < ActRank(x.act[c])
  {
    hide Names.AfterClose;
    if m.Sweep? {
      SweepRank(x, c, m.p);
      hide Names.Next, ActRank;
    } else if x.act[c].Deleting? {
      AfterCloseRank(x.act[c].rest, x.act[c].sweep);
    }
  }

  /** The move was of worker c alone and touched nothing of other controls. */
  ghost predicate Alone(s: State, s': State, c: Ref) {
    && Worker(c) in s.threads && Worker(c) in s'.threads && c in s.core.ctls && c in s'.core.ctls
    && s'.threads == s.threads[Worker(c) := s'.threads[Worker(c)]] && s'.threads[Worker(c)].ctl == c
    && s'.core.ctls == s.core.ctls[c := s'.core.ctls[c]] && s'.core.ctls[c].run == s.core.ctls[c].run
    && s'.core.closed == s.core.closed && s'.core.entries == s.core.entries && s'.core.reg == s.core.reg
    && s.core.cut <= s'.core.cut && s.core.gone <= s'.core.gone
  }

  ghost predicate Nearer(s: State, s': State, c: Ref)
    requires Worker(c) in s.threads && Worker(c) in s'.threads
  {
    var pc, pc' := s.threads[Worker(c)].pc, s'.threads[Worker(c)].pc;
    PcRank(pc') < PcRank(pc) || (PcRank(pc') == PcRank(pc) && Inner(s'.core, c, pc') < Inner(s.core, c, pc))
  }

  lemma WorkerReady(s: State, c: Ref)
    requires Worker(c) in s.threads && ThreadOk(s.core, Worker(c), s.threads[Worker(c)])
    requires var pc := s.threads[Worker(c)].pc;
             && !pc.Done? && c in s.core.names.act
             && (pc.Serving? ==> ReadFails(s.core, c) && s.core.names.act[c].Idle?)
             && (pc.ClosingProxies? ==> s.core.names.act[c].Swept?)
    ensures Ready(s, Worker(c), 0)
  {
    hide Current, Names.Reading, Names.InSweep;
  }

  lemma WorkerStepNearer(s: State, c: Ref)
    requires Worker(c) in s.threads && c in s.core.ctls && s.threads[Worker(c)].ctl == c
    requires IsWorkerPc(s.threads[Worker(c)].pc)
    ensures Alone(s, WorkerStep(s, c, s.threads[Worker(c)].pc), c)
    ensures Nearer(s, WorkerStep(s, c, s.threads[Worker(c)].pc), c)
  {
    hide Names.StartSweep, ActRank;
    assert s.core.ctls == s.core.ctls[c := s.core.ctls[c]];
    assert s.threads == s.threads[Worker(c) := s.threads[Worker(c)]];
    if s.threads[Worker(c)].pc.Draining? {
      hide Inner;
      DrainNearer(s, c);
    } else {
      hide DrainOne, Inner;
    }
  }

  lemma DrainNearer(s: State, c: Ref)
    requires Worker(c) in s.threads && c in s.core.ctls && s.threads[Worker(c)].pc.Draining?
    ensures Nearer(s, WorkerStep(s, c, Draining), c)
  {
    hide Names.StartSweep, ActRank;
  }

  /** A removal by a control that is not current changes nothing and gets on. */
  lemma RemovalNearer(s: State, c: Ref, now: int)
    requires CoreOk(s.core) && Worker(c) in s.threads && c in s.core.ctls && s.threads[Worker(c)].ctl == c
    requires ThreadOk(s.core, Worker(c), s.threads[Worker(c)]) && !Current(s.core, c)
    requires KindOf(s.threads[Worker(c)].pc) == Some(Remove) && Ready(s, Worker(c), 0)
    ensures var s' := StepOf(s, Worker(c), true, 0, now); Alone(s, s', c) && Nearer(s, s', c)
  {
    hide CoreOk;
    var pc := s.threads[Worker(c)].pc;
    if pc.InMgr? {
      RemoverFacts(s.core, Worker(c), s.threads[Worker(c)], pc.maybe.value);
      StaleOwnsNothing(s.core, c, pc.maybe.value);
    }
    hide ThreadOk;
    assert s.core.ctls == s.core.ctls[c := s.core.ctls[c]];
  }

  lemma StaleOwnsNothing(k: Core, c: Ref, seen: Seen)
    requires CoreOk(k) && c in k.ctls && !Current(k, c) && Holds(k, k.ctls[c].run, seen)
    ensures !OwnsEntry(k, c, seen)
  {
    hide CoreOk;
  }

  function Renamed(s: State, c: Ref, m: Names.Move): State
    requires Names.Enabled(s.core.names, c, m)
  {
    s.(core := s.core.(names := Names.Next(s.core.names, c, m)))
  }

  lemma NameMoveNearer(s: State, c: Ref, m: Names.Move)
    requires Names.Enabled(s.core.names, c, m) && (m.Advance? || m.Sweep?)
    requires Worker(c) in s.threads && s.threads[Worker(c)].ctl == c && c in s.core.ctls
    requires s.threads[Worker(c)].pc.Serving? || s.threads[Worker(c)].pc.ClosingProxies?
    ensures Alone(s, Renamed(s, c, m), c) && Nearer(s, Renamed(s, c, m), c)
  {
    assert c in s.core.names.act;
    hide Names.Enabled, Names.Next, ActRank;
    AdvanceRanks(s.core.names, c, m);
    assert s.core.ctls == s.core.ctls[c := s.core.ctls[c]];
    assert s.threads == s.threads[Worker(c) := s.threads[Worker(c)]];
  }

  lemma WorkerFacts(s: State, c: Ref)
    requires Inv(s) && Worker(c) in s.threads
    ensures CoreOk(s.core) && ThreadOk(s.core, Worker(c), s.threads[Worker(c)])
    ensures s.threads[Worker(c)].ctl == c && c in s.core.ctls && c in s.core.names.act
    ensures Names.OwnerOk(s.core.names, c) && c in s.core.names.proxies
    ensures var pc := s.threads[Worker(c)].pc;
            && (IsWorkerPc(pc) || KindOf(pc) == Some(Remove) || pc.Done?)
            && (pc.Serving? ==> Names.Reading(s.core.names.act[c]))
            && (pc.ClosingProxies? ==> Names.InSweep(s.core.names.act[c]))
  {
    hide CoreOk, DomainOk, Exclusive, ThreadsOk, SeenOk, Names.OwnerOk;
    ThreadHolds(s, Worker(c));
    InvParts(s);
    OwnerOkOf(s.core, c);
    hide Inv;
  }

  /** The name move a worker still waits for, if any. */
  lemma PendingMove(s: State, c: Ref) returns (m: Names.Move)
    requires Worker(c) in s.threads && c in s.core.names.act && c in s.core.names.proxies
    requires Names.OwnerOk(s.core.names, c)
    requires var pc, act := s.threads[Worker(c)].pc, s.core.names.act[c];
             || (pc.Serving? && Names.Reading(act) && !act.Idle?)
             || (pc.ClosingProxies? && Names.InSweep(act) && !act.Swept?)
    ensures MoveAllowed(s, c, m) && (m.Advance? || m.Sweep?)
  {
    var act := s.core.names.act[c];
    if act.Sweeping? {
      var p :| p in act.rest;
      m := Names.Sweep(p);
    } else {
      m := Names.Advance;
    }
  }

  /** One more move of the worker. */
  lemma WorkerMove(s0: State, s: State, c: Ref) returns (s': State)
    requires On(s0, s) && Worker(c) in s.threads && OthersCalm(s, Worker(c))
    requires !s.threads[Worker(c)].pc.Done? && !Current(s.core, c) && ReadFails(s.core, c)
    ensures On(s0, s') && Alone(s, s', c) && Nearer(s, s', c)
  {
    hide Leads, InterruptsOk, Inv, CoreOk, ThreadOk, OthersCalm, Current, Alone, Nearer, Names.OwnerOk, Unblocked,
        WorkerStep;
    WorkerFacts(s, c);
    hide On;
    var pc, act := s.threads[Worker(c)].pc, s.core.names.act[c];
    if (pc.Serving? && !act.Idle?) || (pc.ClosingProxies? && !act.Swept?) {
      var m := PendingMove(s, c);
      NameMoveNearer(s, c, m);
      s' := Act(s0, s, NameMove(c, m));
    } else {
      WorkerReady(s, c);
      AloneIsUnblocked(s, Worker(c));
      s' := StepOn(s0, s, Worker(c), 0);
      if IsWorkerPc(pc) { WorkerStepNearer(s, c); } else { RemovalNearer(s, c, 0); }
    }
  }

  lemma AloneTransitive(s: State, s': State, s'': State, c: Ref)
    requires Alone(s, s', c) && Alone(s', s'', c)
    ensures Alone(s, s'', c)
  {
  }

  lemma AloneFacts(s: State, s': State, c: Ref)
    requires Alone(s, s', c) && OthersCalm(s, Worker(c)) && !Current(s.core, c) && ReadFails(s.core, c)
    ensures OthersCalm(s', Worker(c)) && !Current(s'.core, c) && ReadFails(s'.core, c)
  {
    CalmStays(s, s', Worker(c));
    hide OthersCalm;
  }

  /** The worker of a control that was replaced and interrupted finishes by its own moves,
      whatever it has left to do. */
  lemma {:induction false} WorkerCanFinish(s0: State, s: State, c: Ref) returns (s': State)
    requires On(s0, s) && Worker(c) in s.threads && OthersCalm(s, Worker(c)) && !Current(s.core, c)
    requires ReadFails(s.core, c)
    ensures On(s0, s') && Alone(s, s', c) && s'.threads[Worker(c)].pc.Done?
    decreases PcRank(s.threads[Worker(c)].pc), Inner(s.core, c, s.threads[Worker(c)].pc)
  {
    hide OthersCalm, Current, PcRank, Inner, ReadFails;
    if s.threads[Worker(c)].pc.Done? {
      s' := s;
      assert Alone(s, s, c) by { hide On; AloneReflexive(s0, s, c); }
    } else {
      var s1 := WorkerMove(s0, s, c);
      AloneFacts(s, s1, c);
      hide On;
      s' := WorkerCanFinish(s0, s1, c);
      AloneTransitive(s, s1, s', c);
    }
  }

  lemma AloneReflexive(s0: State, s: State, c: Ref)
    requires On(s0, s) && Worker(c) in s.threads
    ensures Alone(s, s, c)
  {
    hide Inv, InterruptsOk, Leads, CoreOk, ThreadOk, Names.OwnerOk;
    WorkerFacts(s, c);
    assert s.core.ctls == s.core.ctls[c := s.core.ctls[c]];
    assert s.threads == s.threads[Worker(c) := s.threads[Worker(c)]];
  }
}

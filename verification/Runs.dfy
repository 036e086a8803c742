/** The invariant holds in every state of every run. */
module Runs {
  import opened Lifecycle
  import opened Protocol
  import opened CoreInvariant
  import opened ThreadInvariant
  import opened StepInvariant
  import opened CommitSteps
  import opened SoloSteps
  import opened WorkerSteps
  import Names

  lemma InitOk(s: State)
    requires Init(s)
    ensures Inv(s)
  {
    assert Names.ManagerShares(Names.EMPTY) == map[] && Names.HoleShares(Names.EMPTY) == map[];
  }

  lemma CommitOk(s: State, t: Tid, ok: bool, pick: Ref, now: int)
    requires Inv(s) && t in s.threads && Ready(s, t, pick) && Unblocked(s, t) && s.threads[t].pc.InMgr?
    ensures Inv(StepOf(s, t, ok, pick, now))
  {
    hide CoreOk, DomainOk, Exclusive, ThreadsOk;
    ThreadHolds(s, t);
    var kind := s.threads[t].pc.kind;
    assert kind.Add? || kind.Activate? || kind.Remove?;
    hide Inv, ThreadOk, CommitAdd, CommitActivate, CommitRemove, Unblocked;
    if kind.Add? { CommitAddOk(s, t, s.threads[t].pc.maybe); }
    else if kind.Activate? { CommitActivateOk(s, t, s.threads[t].pc.maybe.value, now); }
    else { CommitRemoveOk(s, t, s.threads[t].pc.maybe.value, now); }
  }

  lemma HaveRunOk(s: State, t: Tid, ok: bool, pick: Ref, now: int)
    requires Inv(s) && t in s.threads && Ready(s, t, pick) && s.threads[t].pc.HaveRun?
    ensures Inv(StepOf(s, t, ok, pick, now))
  {
    hide CoreOk, DomainOk, Exclusive, ThreadsOk;
    ThreadHolds(s, t);
    assert s.threads[t].pc.kind.Login? || s.threads[t].pc.kind.Work?;
    hide Inv, ThreadOk, BeginLogin, DeliverStep;
    if s.threads[t].pc.kind.Login? { BeginLoginOk(s, t, s.threads[t].pc.seen); }
    else { DeliverStepOk(s, t, s.threads[t].pc.seen); }
  }

  lemma StepOk(s: State, t: Tid, ok: bool, pick: Ref, now: int)
    requires Inv(s) && t in s.threads && Ready(s, t, pick) && Unblocked(s, t)
    ensures Inv(StepOf(s, t, ok, pick, now))
  {
    hide Inv, EndLogin, NotifyStep, PassBarrier, CloseStep, PickTarget, WorkerStep, CommitAdd, CommitActivate,
      CommitRemove, BeginLogin, DeliverStep, LifeFree, GateFree, MgrFree;
    var pc := s.threads[t].pc;
    if pc.Read? || pc.WantGate? || pc.Recheck? || pc.WantMgr? { GateStepOk(s, t, ok, pick, now); }
    else if pc.InMgr? { CommitOk(s, t, ok, pick, now); }
    else if pc.HaveRun? { HaveRunOk(s, t, ok, pick, now); }
    else if pc.Writing? { EndLoginOk(s, t, pc.seen, ok); }
    else if pc.Notify? { NotifyStepOk(s, t, pc.prev); }
    else if pc.WaitBarrier? { PassBarrierOk(s, t); }
    else if pc.CloseTarget? { CloseStepOk(s, t); }
    else if pc.NextTarget? { PickTargetOk(s, t, pick); }
    else { WorkerStepOk(s, s.threads[t].ctl, pick); }
  }

  /** Every action keeps the invariant. */
  lemma ActionOk(s: State, a: Action)
    requires Inv(s) && Enabled(s, a)
    ensures Inv(Apply(s, a))
  {
    hide Inv, StepOf, Ready, Unblocked, LifeFree, MgrFree, MoveAllowed, Close, Take, NewCloser;
    match a {
      case Step(t, ok, pick, now) => StepOk(s, t, ok, pick, now);
      case NewLogin(c, run, login, poolCount) => NewLoginStepOk(s, c, run, login, poolCount);
      case NewWorkConn(n, c) => NewWorkConnOk(s, n, c);
      case CloseManager(n) => CloseManagerOk(s, n);
      case Heartbeat(c) => HeartbeatOk(s, c);
      case PeerLeaves(c) => ConnectionsOk(s, s.core.(gone := s.core.gone + {c}));
      case TakeConn(c) => TakeStepOk(s, c);
      case NameMove(c, move) => NameMoveOk(s, c, move);
    }
  }

  /** The invariant in every state of every run. */
  lemma {:induction false} RunOk(run: seq<State>, i: nat)
    requires IsRun(run) && i < |run|
    ensures Inv(run[i])
    decreases i
  {
    hide Inv, Init, Enabled, Apply;
    if i == 0 {
      InitOk(run[0]);
    } else {
      RunOk(run, i - 1);
      assert Next(run[i - 1], run[i - 1 + 1]);
      var a :| Enabled(run[i - 1], a) && run[i] == Apply(run[i - 1], a);
      ActionOk(run[i - 1], a);
    }
  }

  lemma ReachableOk(s: State)
    requires Reachable(s)
    ensures Inv(s)
  {
    hide Inv, Init, Next;
    var run :| IsRun(run) && s == run[|run| - 1];
    RunOk(run, |run| - 1);
  }
}

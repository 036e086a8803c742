/** A login or a work connection is refused only for a cause: over every run, an operation of
    the manager fails only if the manager is closed, the control was replaced or removed, its
    client ID is held by another client, its answer could not be written, or its pool is full. */
module Refusals {
  import opened Options
  import opened Lifecycle
  import opened Protocol
  import opened CoreInvariant
  import opened ThreadInvariant
  import opened StepInvariant
  import opened CommitSteps
  import opened Runs
  import opened Effects
  import opened Handoff
  import opened Logins
  import Registry

  predicate Conflicted(k: Core, c: Ref) {
    c in k.ctls && Registry.Conflicts(k.reg, k.ctls[c].login, k.ctls[c].run)
  }

  /** Why operation `kind` for control c may fail in state s. */
  predicate HasCause(k: Core, kind: Kind, c: Ref, writing: bool) {
    || k.closed
    || (kind.Activate? && (!Current(k, c) || Conflicted(k, c)))
    || (kind.Login? && (!Current(k, c) || writing))
    || (kind.Work? && (!Current(k, c) || !k.ctls[c].state.Running?
                       || |k.ctls[c].pool| >= k.ctls[c].poolCount + WORK_CONN_POOL_CAPACITY_OFFSET))
  }

  /** The thread's next place if its operation goes on. */
  predicate GoesOn(kind: Kind, pc: Pc) {
    match kind
    case Add => KindOf(pc) == Some(Add) || pc.Notify? || pc.WaitBarrier?
    case Activate => KindOf(pc) == Some(Activate) || pc == Read(Login)
    case Login => KindOf(pc) == Some(Login) || pc == Done(true)
    case Work => KindOf(pc) == Some(Work) || pc == Done(true)
    case Remove => true
  }

  // ----- The looks at the map -----

  lemma ReadCause(k: Core, t: Tid, thr: Thr, kind: Kind)
    requires thr.ctl in k.ctls && !kind.Remove?
    ensures GoesOn(kind, AfterRead(k, t, thr, kind)) || HasCause(k, kind, thr.ctl, false)
  {
  }

  lemma RecheckCause(k: Core, t: Tid, thr: Thr, kind: Kind, seen: Seen)
    requires thr.ctl in k.ctls && !kind.Remove? && !kind.Add? && GateIfCurrent(k, thr.ctl, seen)
    ensures GoesOn(kind, AfterRecheck(k, t, thr, kind, seen)) || HasCause(k, kind, thr.ctl, false)
  {
  }

  // ----- The sections -----

  lemma AddCause(s: State, t: Tid, maybe: Option<Seen>)
    requires Inv(s) && t in s.threads && s.threads[t].pc == InMgr(Add, maybe) && !s.core.closed
    ensures var c, s' := s.threads[t].ctl, CommitAdd(s, t, maybe);
            && t in s'.threads && c in s'.core.ctls
            && ((s'.core == s.core && s'.threads[t].pc == Read(Add))
                || (Current(s'.core, c) && s'.core.ctls[c].state.Pending?
                    && (s'.threads[t].pc.Notify? || s'.threads[t].pc.WaitBarrier?)))
  {
    hide CoreOk, DomainOk, Exclusive, ThreadsOk, ThreadOk, Ok, ReplacedBarrier;
    ThreadHolds(s, t);
    InvParts(s);
    AdderFacts(s.core, t, s.threads[t], maybe);
    var k, c := s.core, s.threads[t].ctl;
    if AddCommits(k, c, maybe) && maybe.Some? {
      ReplacingFacts(s, t, maybe.value);
      hide MarkReplaced;
    }
    hide Inv;
  }

  /** A pending login that is current is pending, and its entry is its own. */
  lemma CurrentIsPending(k: Core, c: Ref)
    requires CoreOk(k) && Current(k, c) && !k.ctls[c].started
    ensures k.ctls[c].state.Pending? && OwnsEntry(k, c, SeenOf(k.entries[k.ctls[c].run]))
  {
    hide CoreOk, PoolOk, BarrierOk;
    EntryIsOwn(k, c);
    EntryOfRun(k, k.ctls[c].run);
    CtlHolds(k, c);
  }

  lemma ActivateCause(s: State, t: Tid, seen: Seen, now: int)
    requires Inv(s) && t in s.threads && s.threads[t].pc == InMgr(Activate, Some(seen))
    ensures var c, s' := s.threads[t].ctl, CommitActivate(s, t, seen, now);
            t in s'.threads && (GoesOn(Activate, s'.threads[t].pc) || HasCause(s.core, Activate, c, false))
  {
    hide CoreOk, DomainOk, Exclusive, ThreadsOk, ThreadOk, Registry.Conflicts, Registry.Registered;
    ThreadHolds(s, t);
    InvParts(s);
    ActivatorFacts(s.core, t, s.threads[t], seen);
    if Current(s.core, s.threads[t].ctl) { CurrentIsPending(s.core, s.threads[t].ctl); }
    hide Inv, OwnsEntry;
  }

  lemma BeginCause(s: State, t: Tid, seen: Seen)
    requires Inv(s) && t in s.threads && s.threads[t].pc == HaveRun(Login, seen)
    ensures var c, s' := s.threads[t].ctl, BeginLogin(s, t, seen);
            t in s'.threads && (GoesOn(Login, s'.threads[t].pc) || HasCause(s.core, Login, c, false))
  {
    hide CoreOk, DomainOk, Exclusive, ThreadsOk;
    ThreadHolds(s, t);
    InvParts(s);
    if Current(s.core, s.threads[t].ctl) { CurrentIsPending(s.core, s.threads[t].ctl); }
    hide Inv;
  }

  lemma WriteCause(s: State, t: Tid, seen: Seen, ok: bool)
    requires Inv(s) && t in s.threads && s.threads[t].pc == Writing(seen)
    ensures t in EndLogin(s, t, ok).threads && (ok ==> EndLogin(s, t, ok).threads[t].pc == Done(true))
  {
    hide CoreOk, DomainOk, Exclusive, ThreadsOk;
    ThreadHolds(s, t);
    hide Inv;
  }

  lemma DeliverCause(s: State, t: Tid, seen: Seen)
    requires Inv(s) && t in s.threads && t.Carrier? && s.threads[t].pc == HaveRun(Work, seen)
    ensures var c, s' := s.threads[t].ctl, DeliverStep(s, t, seen);
            t in s'.threads && (GoesOn(Work, s'.threads[t].pc) || HasCause(s.core, Work, c, false))
  {
    hide CoreOk, DomainOk, Exclusive, ThreadsOk;
    ThreadHolds(s, t);
    InvParts(s);
    if Current(s.core, s.threads[t].ctl) { EntryIsOwn(s.core, s.threads[t].ctl); }
    hide Inv, Deliver;
  }

  // ----- Any step of an operation -----

  /** What a thread in an operation may rely on. */
  lemma OperationFacts(s: State, t: Tid, kind: Kind)
    requires Inv(s) && t in s.threads && KindOf(s.threads[t].pc) == Some(kind) && !kind.Remove?
    ensures s.threads[t].ctl in s.core.ctls && (kind.Work? ==> t.Carrier?) && !s.threads[t].pc.Done?
    ensures s.threads[t].pc.Recheck? ==> !kind.Add? && GateIfCurrent(s.core, s.threads[t].ctl, s.threads[t].pc.seen)
    ensures s.threads[t].pc.InMgr? ==> kind.Add? || (kind.Activate? && s.threads[t].pc.maybe.Some?)
    ensures s.threads[t].pc.HaveRun? ==> kind.Login? || kind.Work?
  {
    hide CoreOk, DomainOk, Exclusive, ThreadsOk;
    ThreadHolds(s, t);
    hide Inv;
  }

  lemma StepCause(s: State, a: Action, kind: Kind)
    requires Inv(s) && Enabled(s, a) && a.Step? && a.t in s.threads
    requires KindOf(s.threads[a.t].pc) == Some(kind) && !kind.Remove?
    ensures var thr := s.threads[a.t];
            a.t in Apply(s, a).threads
            && (GoesOn(kind, Apply(s, a).threads[a.t].pc)
                || HasCause(s.core, kind, thr.ctl, thr.pc.Writing? && !a.ok))
  {
    hide Inv, HasCause, GoesOn, CommitAdd, CommitActivate, CommitRemove, BeginLogin, EndLogin, DeliverStep, WorkerStep,
      NotifyStep, PassBarrier, CloseStep, AfterRead, AfterRecheck, Unblocked;
    var t, thr := a.t, s.threads[a.t];
    OperationFacts(s, t, kind);
    match thr.pc {
      case Read(_) => ReadCause(s.core, t, thr, kind);
      case WantGate(_, seen) => GateGoesOn(kind, seen);
      case Recheck(_, seen) => RecheckCause(s.core, t, thr, kind, seen);
      case WantMgr(_, maybe) => MgrGoesOn(kind, maybe);
      case InMgr(_, maybe) =>
        if kind.Add? { AddStepCause(s, t, maybe); } else { ActivateCause(s, t, maybe.value, a.now); }
      case HaveRun(_, seen) => if kind.Login? { BeginCause(s, t, seen); } else { DeliverCause(s, t, seen); }
      case Writing(seen) => WriteStepCause(s, t, seen, a.ok);
    }
  }

  lemma GateGoesOn(kind: Kind, seen: Seen)
    ensures GoesOn(kind, AfterGate(kind, seen))
  {
  }

  lemma MgrGoesOn(kind: Kind, maybe: Option<Seen>)
    ensures GoesOn(kind, InMgr(kind, maybe))
  {
  }

  lemma AddStepCause(s: State, t: Tid, maybe: Option<Seen>)
    requires Inv(s) && t in s.threads && s.threads[t].pc == InMgr(Add, maybe)
    ensures t in CommitAdd(s, t, maybe).threads
    ensures GoesOn(Add, CommitAdd(s, t, maybe).threads[t].pc) || HasCause(s.core, Add, s.threads[t].ctl, false)
  {
    hide Inv;
    if !s.core.closed {
      hide CommitAdd;
      AddCause(s, t, maybe);
    }
  }

  lemma WriteStepCause(s: State, t: Tid, seen: Seen, ok: bool)
    requires Inv(s) && t in s.threads && s.threads[t].pc == Writing(seen)
    ensures t in EndLogin(s, t, ok).threads
    ensures GoesOn(Login, EndLogin(s, t, ok).threads[t].pc) || HasCause(s.core, Login, s.threads[t].ctl, !ok)
  {
    hide Inv, EndLogin;
    WriteCause(s, t, seen, ok);
  }

  // ----- Over every run -----

  /** The operation of thread t at state i of a run, if it is in one. */
  function OperationAt(s: State, t: Tid): Option<Kind> {
    if t in s.threads then KindOf(s.threads[t].pc) else None
  }

  /** The write of c's LoginResp fails in this step. */
  ghost predicate WriteFails(s: State, s': State, c: Ref) {
    exists a :: Enabled(s, a) && s' == Apply(s, a) && a.Step? && a.t == Handler(c) && !a.ok
                && a.t in s.threads && s.threads[a.t].pc.Writing?
  }

  /** The thread that changes its place is the one that takes the step, and it has a cause to give up. */
  lemma OperationEnds(run: seq<State>, i: nat, t: Tid, kind: Kind) returns (a: Action)
    requires IsRun(run) && i + 1 < |run| && OperationAt(run[i], t) == Some(kind) && !kind.Remove?
    requires t in run[i + 1].threads && !GoesOn(kind, run[i + 1].threads[t].pc)
    ensures Enabled(run[i], a) && run[i + 1] == Apply(run[i], a) && a.Step? && a.t == t
    ensures HasCause(run[i].core, kind, run[i].threads[t].ctl, run[i].threads[t].pc.Writing? && !a.ok)
  {
    hide IsRun, Inv, Enabled, Apply, HasCause;
    a := ActionOf(run, i);
    if a.Step? && a.t == t {
      hide GoesOn;
      StepCause(run[i], a, kind);
    } else {
      ThreadsStay(run[i], a, t);
    }
  }

  lemma HandlerOf(run: seq<State>, i: nat, c: Ref)
    requires IsRun(run) && i < |run| && Handler(c) in run[i].threads
    ensures run[i].threads[Handler(c)].ctl == c && c in run[i].core.ctls
  {
    hide IsRun, Inv, CoreOk, SeenOk, HandlerOk;
    RunOk(run, i);
    HandlerFacts(run[i], c);
  }

  /** A login is refused only for a cause: Add gives up only under a closed manager, however
      many other logins race it for the slot; Activate also if the control was replaced or its
      client ID is taken; completeLogin also if the control was replaced or the write fails. */
  lemma LoginRefusedForCause(run: seq<State>, i: nat, c: Ref)
    requires IsRun(run) && i + 1 < |run| && OperationAt(run[i + 1], Handler(c)) == Some(Remove)
    requires OperationAt(run[i], Handler(c)).Some? && OperationAt(run[i], Handler(c)) != Some(Remove)
    ensures var k, kind := run[i].core, OperationAt(run[i], Handler(c)).value;
            || k.closed
            || (kind.Activate? && (!Current(k, c) || Conflicted(k, c)))
            || (kind.Login? && (!Current(k, c) || WriteFails(run[i], run[i + 1], c)))
  {
    hide IsRun, Enabled, Apply, Conflicted, Current;
    var kind := OperationAt(run[i], Handler(c)).value;
    HandlerOf(run, i, c);
    NoWork(run, i, c);
    var a := OperationEnds(run, i, Handler(c), kind);
  }

  lemma NoWork(run: seq<State>, i: nat, c: Ref)
    requires IsRun(run) && i < |run|
    ensures OperationAt(run[i], Handler(c)) != Some(Work)
  {
    hide IsRun, Inv;
    RunOk(run, i);
    if OperationAt(run[i], Handler(c)) == Some(Work) { OperationFacts(run[i], Handler(c), Work); }
  }

  /** A work connection is refused only if the manager is closed, its control is no longer
      current or running, or the pool is full. */
  lemma WorkConnRefusedForCause(run: seq<State>, i: nat, n: Conn)
    requires IsRun(run) && i + 1 < |run| && OperationAt(run[i], Carrier(n)) == Some(Work)
    requires Carrier(n) in run[i + 1].threads && run[i + 1].threads[Carrier(n)].pc == Done(false)
    ensures var k, c := run[i].core, run[i].threads[Carrier(n)].ctl;
            || k.closed || !Current(k, c) || !k.ctls[c].state.Running?
            || |k.ctls[c].pool| >= k.ctls[c].poolCount + WORK_CONN_POOL_CAPACITY_OFFSET
  {
    hide IsRun, Enabled, Apply, Current;
    var a := OperationEnds(run, i, Carrier(n), Work);
  }

  /** Add's section under an open manager: the login is current and pending, or it looks again
      with nothing changed. */
  lemma AddAdmitsOrRetries(run: seq<State>, i: nat, c: Ref)
    requires IsRun(run) && i + 1 < |run| && !run[i].core.closed && Handler(c) in run[i].threads
    requires run[i].threads[Handler(c)].pc.InMgr? && run[i].threads[Handler(c)].pc.kind.Add?
    requires Handler(c) in run[i + 1].threads && run[i + 1].threads[Handler(c)].pc != run[i].threads[Handler(c)].pc
    ensures var pc := run[i + 1].threads[Handler(c)].pc;
            || (pc == Read(Add) && run[i + 1].core == run[i].core)
            || (Current(run[i + 1].core, c) && run[i + 1].core.ctls[c].state.Pending?
                && (pc.Notify? || pc.WaitBarrier?))
  {
    hide IsRun, Inv, Enabled;
    HandlerOf(run, i, c);
    var a := ActionOf(run, i);
    RunOk(run, i);
    if a.Step? && a.t == Handler(c) {
      AddCause(run[i], a.t, run[i].threads[a.t].pc.maybe);
      hide CommitAdd, Current;
    } else {
      hide Apply;
      ThreadsStay(run[i], a, Handler(c));
    }
  }

  /** A refused login leaves nothing: its control is closed, was never started and is not current. */
  lemma RefusedLoginIsClosed(run: seq<State>, i: nat, c: Ref)
    requires IsRun(run) && i < |run| && Handler(c) in run[i].threads && run[i].threads[Handler(c)].pc == Done(false)
    ensures c in run[i].core.ctls && run[i].core.ctls[c].state.Closed? && Worker(c) !in run[i].threads
    ensures run[i].core.ctls[c].loginWrites == 0 && !Current(run[i].core, c)
  {
    hide IsRun, Inv, CoreOk, SeenOk, Current;
    RunOk(run, i);
    HandlerFacts(run[i], c);
    hide HandlerOk;
    LifecycleCounts(run, i, c);
    ClosedIsNotCurrent(run[i].core, c);
  }

  lemma ClosedIsNotCurrent(k: Core, c: Ref)
    requires CoreOk(k) && c in k.ctls && k.ctls[c].state.Closed?
    ensures !Current(k, c)
  {
    hide CoreOk;
    if Current(k, c) { EntryOfRun(k, k.ctls[c].run); }
  }

  // ----- What activation does -----

  /** The control is current and online under its own ID, in the registry and in its entry. */
  predicate OnlineAsItself(k: Core, c: Ref) {
    && Current(k, c) && Registry.OnlineAs(k.reg, k.ctls[c].run) == Some(k.ctls[c].id)
    && k.entries[k.ctls[c].run].online && k.entries[k.ctls[c].run].onlineId == k.ctls[c].id
  }

  /** When a control becomes activated the registry shows its run online under its own ID, and
      its entry remembers that. */
  lemma ActivationRegisters(run: seq<State>, i: nat, c: Ref)
    requires IsRun(run) && i + 1 < |run| && c in run[i].core.ctls && c in run[i + 1].core.ctls
    requires !run[i].core.ctls[c].activated && run[i + 1].core.ctls[c].activated
    ensures !Conflicted(run[i].core, c) && OnlineAsItself(run[i + 1].core, c)
  {
    hide IsRun, Inv, Enabled, Apply, Registry.OnlineAs, Registry.Conflicts;
    var a := ActionOf(run, i);
    ActionSteps(run[i], a, c);
    assert Activates(run[i], a, c);
    RegistersNow(run[i], a, c);
  }

  lemma RegistersNow(s: State, a: Action, c: Ref)
    requires Inv(s) && Enabled(s, a) && Activates(s, a, c) && c in s.core.ctls && !s.core.ctls[c].activated
    requires c in Apply(s, a).core.ctls && Apply(s, a).core.ctls[c].activated
    ensures !Conflicted(s.core, c) && OnlineAsItself(Apply(s, a).core, c)
  {
    hide CoreOk, DomainOk, Exclusive, ThreadsOk, ThreadOk, Registry.OnlineAs, Registry.Conflicts, Registry.Registered,
      LifeFree;
    ThreadHolds(s, a.t);
    InvParts(s);
    ActivatorFacts(s.core, a.t, s.threads[a.t], s.threads[a.t].pc.maybe.value);
    hide Inv;
    if !Registry.Conflicts(s.core.reg, s.core.ctls[c].login, s.core.ctls[c].run) {
      Registry.RegisterOwn(s.core.reg, s.core.ctls[c].login, s.core.ctls[c].run, s.core.ctls[c].id, a.now);
    }
  }
}

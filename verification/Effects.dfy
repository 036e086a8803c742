/** What a single action does to a control: nothing ever moves backward, and each
    milestone of a control's life is reached in exactly one place of the program. */
module Effects {
  import opened Options
  import opened Lifecycle
  import opened Protocol
  import opened CoreInvariant
  import opened CoreSteps
  import opened ThreadInvariant
  import opened StepInvariant
  import opened CommitSteps
  import opened SoloSteps
  import Registry

  /** The action is the section of Activate in which `c` is registered online. */
  ghost predicate Activates(s: State, a: Action, c: Ref) {
    && a.Step? && a.t in s.threads && s.threads[a.t].ctl == c && s.threads[a.t].pc.InMgr?
    && s.threads[a.t].pc.kind.Activate? && s.threads[a.t].pc.maybe.Some?
    && ActivationOpen(s.core, c, s.threads[a.t].pc.maybe.value)
  }

  /** The action is a successful write of `c`'s LoginResp. */
  ghost predicate WritesLogin(s: State, a: Action, c: Ref) {
    a.Step? && a.ok && a.t in s.threads && s.threads[a.t].ctl == c && s.threads[a.t].pc.Writing?
  }

  /** The action is the last section of `c`'s worker. */
  ghost predicate Finishes(s: State, a: Action, c: Ref) {
    a.Step? && a.t == Worker(c) && a.t in s.threads && s.threads[a.t].pc.Finish?
  }

  /** The action puts connection `conn` into `c`'s pool. */
  ghost predicate Delivers(s: State, a: Action, c: Ref, conn: Conn) {
    && a.Step? && a.t == Carrier(conn) && a.t in s.threads && s.threads[a.t].ctl == c
    && s.threads[a.t].pc.HaveRun? && s.threads[a.t].pc.kind.Work?
    && Accepts(s.core, c, s.threads[a.t].pc.seen)
  }

  /** How control `x` may become `y` in action `a`. */
  ghost predicate Effect(s: State, a: Action, c: Ref, x: Ctl, y: Ctl) {
    && Forward(x, y)
    && (y.activated == x.activated || Activates(s, a, c))
    && (y.loginWrites == x.loginWrites || (WritesLogin(s, a, c) && y.loginWrites == x.loginWrites + 1
        && y.state.Running?))
    && (y.started == x.started || WritesLogin(s, a, c))
    && (x.started && y.state.Closed? && !x.state.Closed? ==> Finishes(s, a, c))
    && (y.accepted == x.accepted || exists conn :: Delivers(s, a, c, conn) && y.accepted == x.accepted + multiset{conn})
    && (y.waited == x.waited || (x.id > 0 && BarrierPassed(s.core, c)))
  }

  /** A change that reaches no milestone. */
  predicate Plain(x: Ctl, y: Ctl) {
    && y.activated == x.activated && y.loginWrites == x.loginWrites && y.started == x.started
    && y.accepted == x.accepted && y.waited == x.waited && (x.started && y.state.Closed? ==> x.state.Closed?)
  }

  lemma PlainEffect(s: State, a: Action, c: Ref, x: Ctl, y: Ctl)
    requires Forward(x, y) && Plain(x, y)
    ensures Effect(s, a, c, x, y)
  {
    hide Forward;
  }

  lemma SameEffect(s: State, a: Action, c: Ref, x: Ctl)
    ensures Effect(s, a, c, x, x)
  {
    PlainEffect(s, a, c, x, x);
  }

  lemma CloseEffect(s: State, a: Action, c: Ref, x: Ctl)
    requires Ok(x)
    ensures Effect(s, a, c, x, Close(x))
  {
    CloseOk(x);
    hide Ok, Close, Forward;
    PlainEffect(s, a, c, x, Close(x));
  }

  /** The control at `c` before and after. */
  ghost predicate Steps(s: State, a: Action, k': Core, c: Ref) {
    c in s.core.ctls && c in k'.ctls && Effect(s, a, c, s.core.ctls[c], k'.ctls[c])
  }

  lemma UpdateSteps(s: State, a: Action, c: Ref, y: Ctl, d: Ref)
    requires c in s.core.ctls && d in s.core.ctls && Effect(s, a, c, s.core.ctls[c], y)
    ensures Steps(s, a, SetCtl(s.core, c, y), d)
  {
    hide Effect;
    SameEffect(s, a, d, s.core.ctls[d]);
  }

  lemma AddSteps(s: State, a: Action, t: Tid, maybe: Option<Seen>, d: Ref)
    requires Inv(s) && t in s.threads && s.threads[t].pc == InMgr(Add, maybe) && d in s.core.ctls
    ensures Steps(s, a, CommitAdd(s, t, maybe).core, d)
  {
    hide CoreOk, DomainOk, Exclusive, ThreadsOk, ThreadOk, Close, Effect, Ok, ReplacedBarrier;
    var k, c := s.core, s.threads[t].ctl;
    ThreadHolds(s, t);
    InvParts(s);
    AdderFacts(k, t, s.threads[t], maybe);
    SameEffect(s, a, d, k.ctls[d]);
    if AddCommits(k, c, maybe) {
      if maybe.Some? {
        ReplacingFacts(s, t, maybe.value);
        var p := k.entries[k.ctls[c].run].ctl;
        CloseEffect(s, a, p, k.ctls[p]);
        AdmitEffect(s, a, c, k.ctls[c], k.lastId + 1, ReplacedBarrier(k.ctls[p], p));
      } else {
        AdmitEffect(s, a, c, k.ctls[c], k.lastId + 1, None);
      }
    }
  }

  lemma AdmitEffect(s: State, a: Action, c: Ref, x: Ctl, id: nat, b: Option<Ref>)
    requires Ok(x) && x.state.Created?
    ensures Effect(s, a, c, x, Admit(x, id).(barrier := b))
    ensures b.None? ==> Effect(s, a, c, x, Admit(x, id))
  {
    AdmitOk(x, 1, b);
    PlainEffect(s, a, c, x, Admit(x, id).(barrier := b));
    if b.None? { PlainEffect(s, a, c, x, Admit(x, id)); }
    hide Effect;
  }

  lemma ActivateSteps(s: State, a: Action, seen: Seen, d: Ref)
    requires a.Step? && a.t in s.threads && s.threads[a.t].pc == InMgr(Activate, Some(seen)) && d in s.core.ctls
    ensures Steps(s, a, CommitActivate(s, a.t, seen, a.now).core, d)
  {
    hide Registry.Conflicts, Registry.Registered;
    SameEffect(s, a, d, s.core.ctls[d]);
  }

  lemma EndLoginSteps(s: State, a: Action, seen: Seen, d: Ref)
    requires Inv(s) && a.Step? && a.t in s.threads && s.threads[a.t].pc == Writing(seen) && d in s.core.ctls
    ensures Steps(s, a, EndLogin(s, a.t, a.ok).core, d)
  {
    hide CoreOk, DomainOk, Exclusive, ThreadsOk, ThreadOk, Ok;
    var k, thr := s.core, s.threads[a.t];
    ThreadHolds(s, a.t);
    InvParts(s);
    WriterFacts(k, a.t, thr, seen);
    hide Inv;
    SameEffect(s, a, d, k.ctls[d]);
  }

  lemma DeliverSteps(s: State, a: Action, seen: Seen, d: Ref)
    requires a.Step? && a.t in s.threads && a.t.Carrier? && s.threads[a.t].pc == HaveRun(Work, seen) && d in s.core.ctls
    ensures Steps(s, a, DeliverStep(s, a.t, seen).core, d)
  {
    SameEffect(s, a, d, s.core.ctls[d]);
    var c := s.threads[a.t].ctl;
    if Accepts(s.core, c, seen) {
      assert Delivers(s, a, c, a.t.k);
    }
  }

  lemma SteppingWorker(s: State, a: Action, c: Ref, d: Ref)
    requires Inv(s) && a.Step? && a.t == Worker(c) && a.t in s.threads && c in s.core.ctls && d in s.core.ctls
    ensures Steps(s, a, WorkerStep(s, c, s.threads[a.t].pc).core, d)
  {
    hide CoreOk, DomainOk, Exclusive, ThreadsOk, ThreadOk;
    var k, x, pc := s.core, s.core.ctls[c], s.threads[a.t].pc;
    ThreadHolds(s, a.t);
    InvParts(s);
    CtlHolds(k, c);
    hide Inv;
    SameEffect(s, a, d, k.ctls[d]);
    match pc {
      case MarkClosing =>
        var y := if x.state.Running? then x.(state := Closing) else x;
        PlainEffect(s, a, c, x, y);
      case CloseChan => PlainEffect(s, a, c, x, x.(poolClosed := true));
      case Draining => if x.pool != [] { DrainOneOk(x); PlainEffect(s, a, c, x, DrainOne(x)); }
      case ClosingProxies => PlainEffect(s, a, c, x, x.(cleaned := true));
      case Finish => FinishEffect(s, a, c, x);
      case _ =>
    }
    hide Effect, Ok;
  }

  lemma FinishEffect(s: State, a: Action, c: Ref, x: Ctl)
    requires Finishes(s, a, c)
    ensures Effect(s, a, c, x, FinishLocked(x))
  {
  }

  lemma WaitEffect(s: State, a: Action, c: Ref, x: Ctl)
    requires x.id > 0 && BarrierPassed(s.core, c)
    ensures Effect(s, a, c, x, x.(waited := true))
  {
    hide BarrierPassed;
  }

  /** The remaining steps: waiting, notifying, closing, and moves within an operation. */
  lemma OtherSteps(s: State, a: Action, d: Ref)
    requires Inv(s) && a.Step? && a.t in s.threads && Ready(s, a.t, a.pick) && Unblocked(s, a.t) && d in s.core.ctls
    requires var pc := s.threads[a.t].pc; pc.WaitBarrier? || pc.Notify? || pc.CloseTarget?
    ensures Steps(s, a, StepOf(s, a.t, a.ok, a.pick, a.now).core, d)
  {
    hide CoreOk, DomainOk, Exclusive, ThreadsOk, LifeFree, Effect, Close;
    var k, thr := s.core, s.threads[a.t];
    ThreadHolds(s, a.t);
    InvParts(s);
    CtlHolds(k, thr.ctl);
    hide Inv, Ok;
    if thr.pc.WaitBarrier? {
      WaitEffect(s, a, thr.ctl, k.ctls[thr.ctl]);
      UpdateSteps(s, a, thr.ctl, k.ctls[thr.ctl].(waited := true), d);
    } else if thr.pc.CloseTarget? {
      CloseEffect(s, a, thr.ctl, k.ctls[thr.ctl]);
      UpdateSteps(s, a, thr.ctl, Close(k.ctls[thr.ctl]), d);
    } else {
      CtlHolds(k, thr.pc.prev);
      CloseEffect(s, a, thr.pc.prev, k.ctls[thr.pc.prev]);
      UpdateSteps(s, a, thr.pc.prev, Close(k.ctls[thr.pc.prev]), d);
    }
  }

  lemma ThreadSteps(s: State, a: Action, d: Ref)
    requires Inv(s) && Enabled(s, a) && a.Step? && d in s.core.ctls
    ensures Steps(s, a, Apply(s, a).core, d)
  {
    hide Inv, Effect, CommitAdd, CommitActivate, EndLogin, DeliverStep, WorkerStep, NotifyStep, PassBarrier,
        CloseStep, LifeFree;
    var pc := s.threads[a.t].pc;
    KindFacts(s, a.t);
    if pc.InMgr? && pc.kind.Add? { AddSteps(s, a, a.t, pc.maybe, d); }
    else if pc.InMgr? && pc.kind.Activate? { ActivateSteps(s, a, pc.maybe.value, d); }
    else if pc.Writing? { EndLoginSteps(s, a, pc.seen, d); }
    else if pc.HaveRun? && pc.kind.Work? { DeliverSteps(s, a, pc.seen, d); }
    else if IsWorkerPc(pc) { SteppingWorker(s, a, s.threads[a.t].ctl, d); }
    else if pc.WaitBarrier? || pc.Notify? || pc.CloseTarget? { OtherSteps(s, a, d); }
    else { SameEffect(s, a, d, s.core.ctls[d]); }
  }

  lemma KindFacts(s: State, t: Tid)
    requires Inv(s) && t in s.threads
    ensures s.threads[t].pc.InMgr? ==>
              s.threads[t].pc.kind.Add? || s.threads[t].pc.kind.Activate? || s.threads[t].pc.kind.Remove?
    ensures s.threads[t].pc.HaveRun? ==> s.threads[t].pc.kind.Login? || s.threads[t].pc.kind.Work?
  {
    hide CoreOk, DomainOk, Exclusive, ThreadsOk;
    ThreadHolds(s, t);
    hide Inv;
  }

  /** Whatever happens, a control only moves forward, and it is activated, answered,
      started, finished and given connections only by the section meant for it. */
  lemma ActionSteps(s: State, a: Action, d: Ref)
    requires Inv(s) && Enabled(s, a) && d in s.core.ctls
    ensures Steps(s, a, Apply(s, a).core, d)
  {
    hide CoreOk, DomainOk, Exclusive, ThreadsOk, Effect, StepOf, Ready, Unblocked, Close, Ok, MoveAllowed, NewCloser;
    SameEffect(s, a, d, s.core.ctls[d]);
    InvParts(s);
    match a {
      case Step(t, ok, pick, now) => ThreadSteps(s, a, d);
      case Heartbeat(c) =>
        CtlHolds(s.core, c);
        CloseEffect(s, a, c, s.core.ctls[c]);
      case TakeConn(c) =>
        CtlHolds(s.core, c);
        TakeOk(s.core.ctls[c]);
        PlainEffect(s, a, c, s.core.ctls[c], Take(s.core.ctls[c]));
      case _ =>
    }
  }
}

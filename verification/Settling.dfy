/** Locks are let go: from every reachable state the threads that hold a lock can finish what
    they hold it for, so that a state without held locks is always ahead. */
module Settling {
  import opened Options
  import opened Lifecycle
  import opened Protocol
  import opened CoreInvariant
  import opened ThreadInvariant
  import opened StepInvariant
  import opened Handoff
  import opened Interrupts
  import opened Progress
  import opened Completion
  import Registry

  /** The sections until the thread holds no lock. */
  function Hold(pc: Pc): nat {
    if Calm(pc) then 0
    else
      match pc
      case Recheck(_, _) => 3
      case WantMgr(_, _) => 2
      case HaveRun(_, _) => 2
      case _ => 1
  }

  /** Only thread t moved; new threads hold no lock; no control came, and names are as before. */
  ghost predicate OnlyMoved(s: State, s': State, t: Tid) {
    && t in s.threads && t in s'.threads
    && (forall u :: u in s.threads && u != t ==> u in s'.threads && s'.threads[u] == s.threads[u])
    && (forall u :: u in s'.threads && u !in s.threads ==> Calm(s'.threads[u].pc))
    && s'.core.closed == s.core.closed && s'.core.ctls.Keys == s.core.ctls.Keys && s'.core.names == s.core.names
  }

  lemma HolderReady(s: State, t: Tid)
    requires t in s.threads && ThreadOk(s.core, t, s.threads[t]) && !Calm(s.threads[t].pc)
    ensures Ready(s, t, 0)
  {
    hide Current, Holds, SameGate, GateIfCurrent;
  }

  lemma AddLetsGo(s: State, t: Tid, maybe: Option<Seen>)
    requires t in s.threads && s.threads[t].pc == InMgr(Add, maybe) && s.threads[t].ctl in s.core.ctls
    requires forall r :: r in s.core.entries ==> s.core.entries[r].ctl in s.core.ctls
    ensures var s' := CommitAdd(s, t, maybe); OnlyMoved(s, s', t) && Hold(s'.threads[t].pc) < Hold(s.threads[t].pc)
  {
    hide Admit, ReplacedBarrier, MarkReplaced;
  }

  lemma CommitLetsGo(s: State, t: Tid)
    requires t in s.threads && s.threads[t].pc.InMgr? && Ready(s, t, 0)
    requires forall r :: r in s.core.entries ==> s.core.entries[r].ctl in s.core.ctls
    ensures var s' := StepOf(s, t, true, 0, 0); OnlyMoved(s, s', t) && Hold(s'.threads[t].pc) < Hold(s.threads[t].pc)
  {
    hide CommitAdd, CommitActivate, CommitRemove, OnlyMoved, Hold;
    var pc := s.threads[t].pc;
    if pc.kind.Add? {
      AddLetsGo(s, t, pc.maybe);
    } else if pc.kind.Activate? {
      ActivateLetsGo(s, t, pc.maybe.value);
    } else {
      RemoveLetsGo(s, t, pc.maybe.value);
    }
  }

  lemma ActivateLetsGo(s: State, t: Tid, seen: Seen)
    requires t in s.threads && s.threads[t].pc.InMgr? && s.threads[t].ctl in s.core.ctls
    ensures var s' := CommitActivate(s, t, seen, 0);
            OnlyMoved(s, s', t) && Hold(s'.threads[t].pc) < Hold(s.threads[t].pc)
  {
    hide Registry.Registered, Registry.Conflicts;
  }

  lemma RemoveLetsGo(s: State, t: Tid, seen: Seen)
    requires t in s.threads && s.threads[t].pc.InMgr? && s.threads[t].ctl in s.core.ctls
    ensures var s' := CommitRemove(s, t, seen, 0); OnlyMoved(s, s', t) && Hold(s'.threads[t].pc) < Hold(s.threads[t].pc)
  {
    hide Registry.MarkedOffline;
  }

  lemma SectionLetsGo(s: State, t: Tid)
    requires t in s.threads && !Calm(s.threads[t].pc) && !s.threads[t].pc.InMgr? && Ready(s, t, 0)
    requires s.threads[t].pc.Writing? ==> Worker(s.threads[t].ctl) !in s.threads && t.Handler?
    requires s.threads[t].pc.Recheck? ==> !s.threads[t].pc.kind.Add?
    ensures var s' := StepOf(s, t, true, 0, 0); OnlyMoved(s, s', t) && Hold(s'.threads[t].pc) < Hold(s.threads[t].pc)
  {
    hide CommitAdd, CommitActivate, CommitRemove, WorkerStep, NotifyStep, CloseStep, PassBarrier, Accepts, Unusable;
    if s.threads[t].pc.Writing? {
      WriteLetsGo(s, t);
      hide EndLogin;
    } else {
      hide EndLogin;
    }
  }

  lemma WriteLetsGo(s: State, t: Tid)
    requires t in s.threads && s.threads[t].pc.Writing? && Worker(s.threads[t].ctl) !in s.threads && t.Handler?
    ensures var s' := EndLogin(s, t, true); OnlyMoved(s, s', t) && Hold(s'.threads[t].pc) < Hold(s.threads[t].pc)
  {
  }

  lemma HolderFactsNow(s: State, t: Tid)
    requires Inv(s) && t in s.threads && !Calm(s.threads[t].pc)
    ensures Ready(s, t, 0)
    ensures forall r :: r in s.core.entries ==> s.core.entries[r].ctl in s.core.ctls
    ensures s.threads[t].pc.Writing? ==> Worker(s.threads[t].ctl) !in s.threads && t.Handler?
    ensures s.threads[t].pc.Recheck? ==> !s.threads[t].pc.kind.Add?
  {
    hide CoreOk, DomainOk, Exclusive, ThreadsOk;
    ThreadHolds(s, t);
    InvParts(s);
    HolderReady(s, t);
    forall r | r in s.core.entries ensures s.core.entries[r].ctl in s.core.ctls { EntryOfRun(s.core, r); }
    if s.threads[t].pc.Writing? { WriterHasNoWorker(s, t); WriterHoldsGate(s, t); }
    hide Inv, Ready, HandlerOk, WorkerOk, CloserOk, CarrierOk;
  }

  /** Nobody but t is inside the manager or writes a response. */
  ghost predicate Light(s: State, t: Tid) {
    forall u :: u in s.threads && u != t ==> !s.threads[u].pc.InMgr? && !s.threads[u].pc.Writing?
  }

  lemma LightIsUnblocked(s: State, t: Tid)
    requires Inv(s) && t in s.threads && !Calm(s.threads[t].pc)
    requires (s.threads[t].pc.InMgr? || s.threads[t].pc.Writing? || Light(s, t))
    ensures Unblocked(s, t)
  {
    hide Inv, Light, Calm;
    if s.threads[t].pc.InMgr? {
      hide Unblocked;
      HolderUnblocked(s, t);
    } else if !s.threads[t].pc.Writing? {
      hide Unblocked;
      OutsideUnblocked(s, t);
    }
  }

  lemma OutsideUnblocked(s: State, t: Tid)
    requires t in s.threads && !Calm(s.threads[t].pc) && !s.threads[t].pc.InMgr? && Light(s, t)
    ensures Unblocked(s, t)
  {
  }

  lemma HolderStep(s0: State, s: State, t: Tid) returns (s': State)
    requires On(s0, s) && t in s.threads && !Calm(s.threads[t].pc)
    requires s.threads[t].pc.InMgr? || s.threads[t].pc.Writing? || Light(s, t)
    ensures On(s0, s') && OnlyMoved(s, s', t) && Hold(s'.threads[t].pc) < Hold(s.threads[t].pc)
  {
    hide Leads, Inv, InterruptsOk, Calm, Light, Ready, Unblocked, StepOf, Hold, OnlyMoved;
    HolderFactsNow(s, t);
    LightIsUnblocked(s, t);
    hide On;
    s' := StepOn(s0, s, t, 0);
    if s.threads[t].pc.InMgr? { CommitLetsGo(s, t); } else { SectionLetsGo(s, t); }
  }

  lemma MovedTransitive(s: State, s': State, s'': State, t: Tid)
    requires OnlyMoved(s, s', t) && OnlyMoved(s', s'', t)
    ensures OnlyMoved(s, s'', t)
  {
  }

  lemma MovedLight(s: State, s': State, t: Tid)
    requires OnlyMoved(s, s', t) && Light(s, t)
    ensures Light(s', t)
  {
  }

  /** A lock holder lets go, if nobody else is inside the manager or writing. */
  lemma {:induction false} LetGo(s0: State, s: State, t: Tid) returns (s': State)
    requires On(s0, s) && t in s.threads && !Calm(s.threads[t].pc)
    requires s.threads[t].pc.InMgr? || s.threads[t].pc.Writing? || Light(s, t)
    ensures On(s0, s') && OnlyMoved(s, s', t) && Calm(s'.threads[t].pc)
    decreases Hold(s.threads[t].pc)
  {
    hide On, Light, OnlyMoved, Calm;
    s' := HolderStep(s0, s, t);
    assert t in s'.threads by { hide On; MovedHas(s, s', t); }
    if !Calm(s'.threads[t].pc) {
      MovedLight(s, s', t);
      var s1 := s';
      s' := LetGo(s0, s1, t);
      MovedTransitive(s, s1, s', t);
    }
  }

  lemma MovedHas(s: State, s': State, t: Tid)
    requires OnlyMoved(s, s', t)
    ensures t in s'.threads
  {
  }

  // ----- All of them, one after the other -----

  function Holders(s: State): set<Tid> {
    set u | u in s.threads && !Calm(s.threads[u].pc)
  }

  /** The next holder to let go: the manager's, else a writer, else any. */
  lemma NextHolder(s: State) returns (t: Tid)
    requires Holders(s) != {}
    ensures t in s.threads && !Calm(s.threads[t].pc)
    ensures s.threads[t].pc.InMgr? || s.threads[t].pc.Writing? || Light(s, t)
  {
    if u :| u in s.threads && s.threads[u].pc.InMgr? {
      t := u;
    } else if u :| u in s.threads && s.threads[u].pc.Writing? {
      t := u;
    } else {
      t :| t in Holders(s);
    }
  }

  lemma FewerHolders(s: State, s': State, t: Tid)
    requires OnlyMoved(s, s', t) && !Calm(s.threads[t].pc) && Calm(s'.threads[t].pc)
    ensures Holders(s') == Holders(s) - {t} && t in Holders(s) && |Holders(s')| < |Holders(s)|
  {
  }

  /** What a login that has not arrived yet can see. */
  ghost predicate SameOutside(s: State, s': State) {
    s'.core.closed == s.core.closed && s'.core.ctls.Keys == s.core.ctls.Keys && s'.core.names == s.core.names
  }

  /** From every reachable state a state without held locks can be reached. */
  lemma {:induction false} Settle(s0: State, s: State) returns (s': State)
    requires On(s0, s)
    ensures On(s0, s') && Holders(s') == {} && SameOutside(s, s') && (Holders(s) == {} ==> s' == s)
    decreases |Holders(s)|
  {
    hide On, Light, Calm;
    if Holders(s) == {} {
      s' := s;
    } else {
      var t := NextHolder(s);
      var s1 := LetGo(s0, s, t);
      FewerHolders(s, s1, t);
      hide Holders;
      s' := Settle(s0, s1);
    }
  }
}

/** Every step of every thread keeps the invariant. */
module StepInvariant {
  import opened Options
  import opened Lifecycle
  import opened Protocol
  import opened CoreInvariant
  import opened CoreSteps
  import opened ThreadInvariant
  import Names

  ghost predicate Inv(s: State) {
    CoreOk(s.core) && ThreadsOk(s) && DomainOk(s) && Exclusive(s.threads)
  }

  // ----- Putting a step together -----

  /** The thread takes no lock that is not free. */
  ghost predicate LocksOk(s: State, t: Tid, pc: Pc)
    requires t in s.threads
  {
    && (GateOf(pc).Some? ==> GateFree(s, GateOf(pc).value) || GateOf(pc) == GateOf(s.threads[t].pc))
    && (pc.InMgr? ==> MgrFree(s) || s.threads[t].pc.InMgr?)
  }

  ghost predicate OthersOk(s: State, k': Core, t: Tid) {
    forall u :: u in s.threads && u != t ==> ThreadOk(k', u, s.threads[u])
  }

  ghost predicate SameDomain(k: Core, k': Core) {
    k'.ctls.Keys == k.ctls.Keys && forall c :: c in k.ctls ==> k'.ctls[c].started == k.ctls[c].started
  }

  lemma Assemble(s: State, t: Tid, k': Core, thr: Thr)
    requires Inv(s) && t in s.threads && CoreOk(k') && ThreadOk(k', t, thr) && OthersOk(s, k', t)
    requires LocksOk(s, t, thr.pc) && SameDomain(s.core, k')
    ensures Inv(State(k', s.threads[t := thr]))
  {
    hide CoreOk, ThreadOk;
    ExclusiveKept(s, t, thr);
    hide Exclusive, GateOf;
  }

  lemma ThreadHolds(s: State, t: Tid)
    requires Inv(s) && t in s.threads
    ensures ThreadOk(s.core, t, s.threads[t])
  {
    hide CoreOk, ThreadOk, DomainOk, Exclusive;
  }

  lemma CtlHolds(k: Core, c: Ref)
    requires CoreOk(k) && c in k.ctls
    ensures CtlOk(k, c)
  {
    hide CtlOk, IdsDistinct, EntriesOk, RegistryOk, HandoffOk, Names.Inv;
  }

  lemma EntryOfRun(k: Core, r: string)
    requires CoreOk(k) && r in k.entries
    ensures EntryOk(k, r) && k.entries[r].id <= k.lastId
  {
    hide Ok, CtlsOk, IdsDistinct, RegistryOk, HandoffOk, Names.Inv, BarrierOk;
    assert EntryOk(k, r);
    hide EntriesOk;
    CtlHolds(k, k.entries[r].ctl);
  }

  /** A step that only moves its thread. */
  lemma MoveOnly(s: State, t: Tid, thr: Thr)
    requires Inv(s) && t in s.threads && ThreadOk(s.core, t, thr) && LocksOk(s, t, thr.pc)
    ensures Inv(s.(threads := s.threads[t := thr]))
  {
    hide CoreOk, ThreadOk, LocksOk, DomainOk, Exclusive;
    Assemble(s, t, s.core, thr);
  }

  // ----- Failing and reading -----

  lemma OkFacts(x: Ctl)
    requires Ok(x)
    ensures (x.state.Created? <==> x.id == 0 && !x.state.Closed?) && (x.activated ==> x.waited)
    ensures x.started ==> x.id > 0
  {
    hide PoolOk;
  }

  lemma FailureOk(k: Core, t: Tid, thr: Thr, kind: Kind)
    requires CoreOk(k) && ThreadOk(k, t, thr) && KindOf(thr.pc) == Some(kind)
    requires kind.Remove? ==> !Current(k, thr.ctl)
    ensures ThreadOk(k, t, thr.(pc := AfterFailure(t, kind)))
  {
    hide CoreOk, Ok, SeenOk, Current;
    if t.Handler? {
      CtlHolds(k, t.c);
      OkFacts(k.ctls[t.c]);
    }
    hide CtlOk;
    SeenTrivial(k, thr.ctl, AfterFailure(t, kind));
  }

  lemma SeenTrivial(k: Core, c: Ref, pc: Pc)
    requires !pc.WantGate? && !pc.Recheck? && !pc.WantMgr? && !pc.InMgr? && !pc.HaveRun? && !pc.Writing?
    ensures SeenOk(k, c, pc) && GateOf(pc).None?
  {
  }

  /** Moving on within one operation changes only what was seen. */
  lemma SameKindOk(k: Core, t: Tid, thr: Thr, pc: Pc)
    requires ThreadOk(k, t, thr) && SeenOk(k, thr.ctl, pc)
    requires KindOf(thr.pc).Some? && KindOf(pc) == KindOf(thr.pc) && !pc.Writing? && !thr.pc.Writing?
    ensures ThreadOk(k, t, thr.(pc := pc))
  {
    hide SeenOk, Current;
  }

  lemma ReadOk(k: Core, t: Tid, thr: Thr, kind: Kind)
    requires CoreOk(k) && ThreadOk(k, t, thr) && thr.pc == Read(kind)
    ensures ThreadOk(k, t, thr.(pc := AfterRead(k, t, thr, kind)))
  {
    hide CoreOk, ThreadOk;
    var r := RunOf(k, thr.ctl);
    if r in k.entries { EntryOfRun(k, r); }
    if !kind.Add? && Unusable(k, kind, r) {
      FailureOk(k, t, thr, kind);
    } else {
      SameKindOk(k, t, thr, AfterRead(k, t, thr, kind));
    }
  }

  lemma RecheckOk(k: Core, t: Tid, thr: Thr, kind: Kind, seen: Seen)
    requires CoreOk(k) && ThreadOk(k, t, thr) && thr.pc == Recheck(kind, seen)
    ensures ThreadOk(k, t, thr.(pc := AfterRecheck(k, t, thr, kind, seen)))
  {
    hide CoreOk, HandlerOk, WorkerOk, CloserOk, CarrierOk;
    var r := RunOf(k, thr.ctl);
    var pc := AfterRecheck(k, t, thr, kind, seen);
    if Unusable(k, kind, r) || k.entries[r].gate != seen.gate {
      FailureOk(k, t, thr, kind);
    } else {
      SameKindOk(k, t, thr, pc);
    }
  }

  lemma GateStepOk(s: State, t: Tid, ok: bool, pick: Ref, now: int)
    requires Inv(s) && t in s.threads && Ready(s, t, pick) && Unblocked(s, t)
    requires var pc := s.threads[t].pc; pc.Read? || pc.WantGate? || pc.Recheck? || pc.WantMgr?
    ensures Inv(StepOf(s, t, ok, pick, now))
  {
    hide ThreadOk, DomainOk, Exclusive, CoreOk, Ready;
    var thr := s.threads[t];
    ThreadHolds(s, t);
    InvParts(s);
    match thr.pc {
      case Read(kind) => ReadOk(s.core, t, thr, kind);
      case WantGate(kind, seen) => LockGateOk(s.core, t, thr, kind, seen);
      case Recheck(kind, seen) => RecheckOk(s.core, t, thr, kind, seen);
      case WantMgr(kind, maybe) => LockMgrOk(s.core, t, thr, kind, maybe);
    }
    hide Inv, ThreadsOk;
    var thr' := StepOf(s, t, ok, pick, now).threads[t];
    assert LocksOk(s, t, thr'.pc);
    MoveOnly(s, t, thr');
  }

  lemma InvParts(s: State)
    requires Inv(s)
    ensures CoreOk(s.core) && DomainOk(s) && Exclusive(s.threads)
  {
    hide CoreOk, DomainOk, Exclusive, ThreadsOk;
  }

  lemma LockGateOk(k: Core, t: Tid, thr: Thr, kind: Kind, seen: Seen)
    requires ThreadOk(k, t, thr) && thr.pc == WantGate(kind, seen)
    ensures ThreadOk(k, t, thr.(pc := AfterGate(kind, seen)))
  {
    hide HandlerOk, WorkerOk, CloserOk, CarrierOk, GateIfCurrent;
    SameKindOk(k, t, thr, AfterGate(kind, seen));
  }

  lemma LockMgrOk(k: Core, t: Tid, thr: Thr, kind: Kind, maybe: Option<Seen>)
    requires ThreadOk(k, t, thr) && thr.pc == WantMgr(kind, maybe)
    ensures ThreadOk(k, t, thr.(pc := InMgr(kind, maybe)))
  {
    hide HandlerOk, WorkerOk, CloserOk, CarrierOk;
    SameKindOk(k, t, thr, InMgr(kind, maybe));
  }

  // ----- Changes outside controls, entries and threads -----

  lemma SameEntriesUndisturbed(k: Core, k': Core)
    requires k'.ctls == k.ctls && k'.entries == k.entries && k'.lastId >= k.lastId && (k.closed ==> k'.closed)
    requires k.names.act.Keys <= k'.names.act.Keys
    ensures Undisturbed(k, k')
  {
  }

  lemma NamesFacts(k: Core)
    requires CoreOk(k)
    ensures Names.Inv(k.names)
    ensures forall c :: c in k.ctls ==> c in k.names.act && NamesFit(k.ctls[c], k.names.act[c])
  {
    hide Ok, BarrierOk, Names.Inv;
    forall c | c in k.ctls ensures c in k.names.act && NamesFit(k.ctls[c], k.names.act[c]) {
      CtlHolds(k, c);
    }
    hide CtlsOk;
  }

  /** What happens to the connections does not touch the invariant. */
  lemma ConnectionsOk(s: State, k': Core)
    requires Inv(s) && k' == s.core.(cut := k'.cut, gone := k'.gone)
    ensures Inv(s.(core := k'))
  {
    hide CoreOk, Exclusive, ThreadOk, Names.Inv;
    InvParts(s);
    NamesFacts(s.core);
    FrameOk(s.core, k');
    SameEntriesUndisturbed(s.core, k');
    hide Undisturbed;
    forall u | u in s.threads ensures ThreadOk(k', u, s.threads[u]) {
      UndisturbedKeepsThread(s.core, k', u, s.threads[u]);
    }
  }

  lemma InterruptOk(s: State, c: Ref)
    requires Inv(s)
    ensures Inv(Interrupt(s, c))
  {
    hide Inv;
    ConnectionsOk(s, Interrupt(s, c).core);
  }
}

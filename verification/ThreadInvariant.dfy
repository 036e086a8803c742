/** What each thread may rely on at each point of its program, and why no step of
    another thread takes it away. */
module ThreadInvariant {
  import opened Options
  import opened Lifecycle
  import opened Protocol
  import Names

  /** The operation a thread is in, if it is in one. */
  function KindOf(pc: Pc): Option<Kind> {
    match pc
    case Read(kind) => Some(kind)
    case WantGate(kind, _) => Some(kind)
    case Recheck(kind, _) => Some(kind)
    case WantMgr(kind, _) => Some(kind)
    case InMgr(kind, _) => Some(kind)
    case HaveRun(kind, _) => Some(kind)
    case Writing(_) => Some(Login)
    case _ => None
  }

  /** The entry that was read is the current entry of the run. */
  predicate Holds(k: Core, r: string, seen: Seen) {
    r in k.entries && SeenOf(k.entries[r]) == seen
  }

  /** As long as the entry that was read is current, its gate is the one that was read. */
  predicate SameGate(k: Core, r: string, seen: Seen) {
    seen.ent <= k.lastId && (r in k.entries && k.entries[r].id == seen.ent ==> k.entries[r].gate == seen.gate)
  }

  /** As long as the control is current, its entry has the gate that was read. */
  predicate GateIfCurrent(k: Core, c: Ref, seen: Seen) {
    Current(k, c) ==> k.entries[k.ctls[c].run].gate == seen.gate
  }

  predicate SeenOk(k: Core, c: Ref, pc: Pc) {
    var r := RunOf(k, c);
    match pc
    case WantGate(kind, seen) =>
      seen.gate <= k.lastId && (if kind.Add? then SameGate(k, r, seen) else GateIfCurrent(k, c, seen))
    case Recheck(kind, seen) => seen.gate <= k.lastId && !kind.Add? && GateIfCurrent(k, c, seen)
    case WantMgr(kind, maybe) => MgrSeenOk(k, r, kind, maybe)
    case InMgr(kind, maybe) => MgrSeenOk(k, r, kind, maybe)
    case HaveRun(kind, seen) => (kind.Login? || kind.Work?) && Holds(k, r, seen)
    case Writing(seen) => Holds(k, r, seen)
    case _ => true
  }

  predicate MgrSeenOk(k: Core, r: string, kind: Kind, maybe: Option<Seen>) {
    if kind.Add? then maybe.Some? ==> SameGate(k, r, maybe.value)
    else (kind.Activate? || kind.Remove?) && maybe.Some? && Holds(k, r, maybe.value)
  }

  /** A control before its handler has waited for the handoff. */
  predicate Fresh(x: Ctl) {
    x.id > 0 && !x.waited && !x.activated && !x.started
  }

  predicate HandlerOk(k: Core, c: Ref, pc: Pc) {
    && c in k.ctls
    && var x := k.ctls[c];
    match pc
    case Notify(p) => Fresh(x) && p in k.ctls && k.ctls[p].id > 0 && Rank(k.ctls[p].state) >= Rank(Closing)
    case WaitBarrier => Fresh(x)
    case CloseTarget => !x.started && !Current(k, c)
    case Writing(seen) => x.activated && !x.started && x.state.Pending? && seen.ctl == c
    case Done(ok) => if ok then x.started else !x.started && x.state.Closed?
    case _ =>
      KindOf(pc).Some? &&
      match KindOf(pc).value
      case Add => x.state.Created? && !x.started
      case Activate => x.id > 0 && x.waited && !x.activated && !x.started
      case Login => x.id > 0 && x.activated && !x.started
      case Remove => !x.started && (x.id > 0 ==> x.waited)
      case Work => false
  }

  predicate WorkerOk(k: Core, c: Ref, pc: Pc) {
    && c in k.ctls && c in k.names.act
    && var x := k.ctls[c];
    && x.started
    && match pc
       case Spawned => !x.cleaned && !x.poolClosed && k.names.act[c].Idle?
       case Serving => !x.cleaned && !x.poolClosed && Names.Reading(k.names.act[c])
       case MarkClosing => !x.cleaned && !x.poolClosed && k.names.act[c].Idle?
       case CloseChan => x.state.Closing? && !x.cleaned && !x.poolClosed && k.names.act[c].Idle?
       case Draining => x.state.Closing? && !x.cleaned && x.poolClosed && k.names.act[c].Idle?
       case ClosingProxies =>
         x.state.Closing? && !x.cleaned && x.poolClosed && x.pool == [] && Names.InSweep(k.names.act[c])
       case LeaveMetrics => x.state.Closing? && x.cleaned
       case Finish => x.state.Closing? && x.cleaned && !Current(k, c)
       case Done(_) => x.state.Closed? && x.cleaned
       case _ => KindOf(pc) == Some(Remove) && x.state.Closing? && x.cleaned
  }

  predicate CloserOk(k: Core, thr: Thr) {
    && k.closed
    && (forall c :: c in thr.todo ==> c in k.ctls && k.ctls[c].id > 0)
    && (thr.pc.NextTarget? || thr.pc.Done? ||
        (thr.ctl in k.ctls && k.ctls[thr.ctl].id > 0
         && (KindOf(thr.pc) == Some(Remove) || (thr.pc.CloseTarget? && !Current(k, thr.ctl)))))
  }

  predicate CarrierOk(k: Core, thr: Thr) {
    thr.ctl in k.ctls && k.ctls[thr.ctl].id > 0 && (thr.pc.Done? || KindOf(thr.pc) == Some(Work))
  }

  predicate ThreadOk(k: Core, t: Tid, thr: Thr) {
    && SeenOk(k, thr.ctl, thr.pc)
    && match t
       case Handler(c) => thr.ctl == c && HandlerOk(k, c, thr.pc)
       case Worker(c) => thr.ctl == c && WorkerOk(k, c, thr.pc)
       case Closer(_) => CloserOk(k, thr)
       case Carrier(_) => CarrierOk(k, thr)
  }

  ghost predicate ThreadsOk(s: State) {
    forall t :: t in s.threads ==> ThreadOk(s.core, t, s.threads[t])
  }

  /** Every control has its handler, and exactly the started ones have a worker. */
  ghost predicate DomainOk(s: State) {
    forall c :: (Handler(c) in s.threads <==> c in s.core.ctls)
                && (Worker(c) in s.threads <==> c in s.core.ctls && s.core.ctls[c].started)
  }

  /** A gate, and the manager lock, have at most one holder. */
  ghost predicate Exclusive(threads: map<Tid, Thr>) {
    forall t, u :: t in threads && u in threads && t != u ==>
      && (GateOf(threads[t].pc).Some? ==> GateOf(threads[t].pc) != GateOf(threads[u].pc))
      && !(threads[t].pc.InMgr? && threads[u].pc.InMgr?)
  }

  /** Taking a lock only when it is free keeps the locks exclusive. */
  lemma ExclusiveKept(s: State, t: Tid, thr: Thr)
    requires Exclusive(s.threads)
    requires GateOf(thr.pc).Some? ==>
               GateFree(s, GateOf(thr.pc).value) || (t in s.threads && GateOf(thr.pc) == GateOf(s.threads[t].pc))
    requires thr.pc.InMgr? ==> MgrFree(s) || (t in s.threads && s.threads[t].pc.InMgr?)
    ensures Exclusive(s.threads[t := thr])
  {
    hide GateOf;
  }

  // ----- Stability under an update of one control -----

  /** How much of control `c` the update may change in the eyes of `u`. */
  predicate Tolerable(c: Ref, x: Ctl, y: Ctl, u: Tid, thr: Thr) {
    && y.run == x.run && y.id == x.id && Rank(x.state) <= Rank(y.state)
    && (u == Handler(c) ==>
          y.waited == x.waited && y.activated == x.activated && y.started == x.started
          && (x.state.Created? || thr.pc.Writing? ==> y.state == x.state))
    && (u == Worker(c) ==>
          y.cleaned == x.cleaned && y.poolClosed == x.poolClosed && y.started == x.started
          && (x.poolClosed && x.pool == [] ==> y.pool == [])
          && (y.state == x.state || (x.state.Running? && y.state.Closing?)))
  }

  lemma UpdateKeepsSeen(k: Core, c: Ref, y: Ctl, d: Ref, pc: Pc)
    requires c in k.ctls && y.run == k.ctls[c].run && SeenOk(k, d, pc)
    ensures SeenOk(SetCtl(k, c, y), d, pc)
  {
    assert RunOf(SetCtl(k, c, y), d) == RunOf(k, d);
    assert Current(SetCtl(k, c, y), d) == Current(k, d);
  }

  lemma UpdateKeepsHandler(k: Core, c: Ref, y: Ctl, d: Ref, thr: Thr)
    requires c in k.ctls && Tolerable(c, k.ctls[c], y, Handler(d), thr) && HandlerOk(k, d, thr.pc)
    ensures HandlerOk(SetCtl(k, c, y), d, thr.pc)
  {
    assert Current(SetCtl(k, c, y), d) == Current(k, d);
    hide KindOf;
  }

  lemma UpdateKeepsWorker(k: Core, c: Ref, y: Ctl, d: Ref, thr: Thr)
    requires c in k.ctls && Tolerable(c, k.ctls[c], y, Worker(d), thr) && WorkerOk(k, d, thr.pc)
    ensures WorkerOk(SetCtl(k, c, y), d, thr.pc)
  {
    assert Current(SetCtl(k, c, y), d) == Current(k, d);
    hide KindOf;
  }

  lemma UpdateKeepsThread(k: Core, c: Ref, y: Ctl, u: Tid, thr: Thr)
    requires c in k.ctls && Tolerable(c, k.ctls[c], y, u, thr) && ThreadOk(k, u, thr)
    ensures ThreadOk(SetCtl(k, c, y), u, thr)
  {
    UpdateKeepsSeen(k, c, y, thr.ctl, thr.pc);
    hide SeenOk, HandlerOk, WorkerOk, KindOf;
    match u {
      case Handler(d) => UpdateKeepsHandler(k, c, y, d, thr);
      case Worker(d) => UpdateKeepsWorker(k, c, y, d, thr);
      case Closer(_) => assert Current(SetCtl(k, c, y), thr.ctl) == Current(k, thr.ctl);
      case Carrier(_) =>
    }
  }

  // ----- Stability under a change of one run's slot in the map -----

  /** Control `c`, never admitted so far, becomes the current generation of its run. */
  ghost predicate Admission(k: Core, k': Core, c: Ref) {
    && c in k.ctls && c in k'.ctls && k.ctls[c].id == 0 && !k.ctls[c].started
    && var r := k.ctls[c].run;
    && k'.ctls == k.ctls[c := k'.ctls[c]] && k'.ctls[c].run == r && k'.ctls[c].id > k.lastId
    && r in k'.entries && k'.entries == k.entries[r := k'.entries[r]]
    && k'.entries[r].ctl == c && k'.entries[r].id > k.lastId
    && k'.lastId >= k.lastId && k'.names == k.names && k'.closed == k.closed
  }

  /** The thread does not hold the gate of the run's current entry. */
  predicate OutsideGate(k: Core, r: string, pc: Pc) {
    r in k.entries ==> GateOf(pc) != Some(k.entries[r].gate)
  }

  lemma AdmissionKeepsSeen(k: Core, k': Core, c: Ref, d: Ref, pc: Pc)
    requires Admission(k, k', c) && OutsideGate(k, k.ctls[c].run, pc) && SeenOk(k, d, pc)
    requires KindOf(pc).Some? && !KindOf(pc).value.Add? ==> d != c
    ensures SeenOk(k', d, pc)
  {
    assert RunOf(k', d) == RunOf(k, d);
    assert d != c ==> Current(k', d) ==> Current(k, d) && k'.entries[k.ctls[d].run] == k.entries[k.ctls[d].run];
  }

  lemma AdmissionKeepsThread(k: Core, k': Core, c: Ref, u: Tid, thr: Thr)
    requires Admission(k, k', c) && OutsideGate(k, k.ctls[c].run, thr.pc) && ThreadOk(k, u, thr) && u != Handler(c)
    ensures ThreadOk(k', u, thr)
  {
    assert KindOf(thr.pc).Some? && !KindOf(thr.pc).value.Add? ==> thr.ctl != c;
    AdmissionKeepsSeen(k, k', c, thr.ctl, thr.pc);
    assert thr.ctl != c ==> Current(k', thr.ctl) ==> Current(k, thr.ctl);
    hide SeenOk, KindOf;
    match u
    case Handler(d) =>
    case Worker(d) =>
    case Closer(_) =>
    case Carrier(_) =>
  }

  /** The slot of run `r` is emptied, by whoever holds its gate. */
  ghost predicate Vacated(k: Core, k': Core, r: string) {
    && r in k.entries && k'.entries == k.entries - {r} && k'.ctls == k.ctls && k'.lastId == k.lastId
    && k'.names == k.names && k'.closed == k.closed
  }

  lemma VacatedKeepsSeen(k: Core, k': Core, r: string, d: Ref, pc: Pc)
    requires Vacated(k, k', r) && OutsideGate(k, r, pc) && SeenOk(k, d, pc)
    ensures SeenOk(k', d, pc)
  {
    assert RunOf(k', d) == RunOf(k, d);
    assert Current(k', d) ==> Current(k, d) && k'.entries[k.ctls[d].run] == k.entries[k.ctls[d].run];
  }

  lemma VacatedKeepsThread(k: Core, k': Core, r: string, u: Tid, thr: Thr)
    requires Vacated(k, k', r) && OutsideGate(k, r, thr.pc) && ThreadOk(k, u, thr)
    ensures ThreadOk(k', u, thr)
  {
    VacatedKeepsSeen(k, k', r, thr.ctl, thr.pc);
    assert Current(k', thr.ctl) ==> Current(k, thr.ctl);
    hide SeenOk, KindOf;
    match u
    case Handler(d) =>
    case Worker(d) =>
    case Closer(_) =>
    case Carrier(_) =>
  }

  /** Entries keep their identity, control and gate; nothing else a thread relies on is taken away. */
  ghost predicate Undisturbed(k: Core, k': Core) {
    && k'.ctls == k.ctls && k'.entries.Keys == k.entries.Keys
    && (forall r :: r in k.entries ==> SeenOf(k'.entries[r]) == SeenOf(k.entries[r]))
    && k'.lastId >= k.lastId && (k.closed ==> k'.closed)
    && k.names.act.Keys <= k'.names.act.Keys
  }

  lemma UndisturbedKeepsSeen(k: Core, k': Core, d: Ref, pc: Pc)
    requires Undisturbed(k, k') && SeenOk(k, d, pc)
    ensures SeenOk(k', d, pc) && Current(k', d) == Current(k, d)
  {
    assert RunOf(k', d) == RunOf(k, d);
    if RunOf(k, d) in k.entries { assert SeenOf(k'.entries[RunOf(k, d)]) == SeenOf(k.entries[RunOf(k, d)]); }
    hide Undisturbed;
  }

  lemma UndisturbedKeepsThread(k: Core, k': Core, u: Tid, thr: Thr)
    requires Undisturbed(k, k') && ThreadOk(k, u, thr)
    requires u.Worker? && u.c in k.names.act ==> k'.names.act[u.c] == k.names.act[u.c]
    ensures ThreadOk(k', u, thr)
  {
    UndisturbedKeepsSeen(k, k', thr.ctl, thr.pc);
    hide SeenOk, KindOf;
    match u
    case Handler(d) =>
    case Worker(d) =>
    case Closer(_) =>
    case Carrier(_) =>
  }
}

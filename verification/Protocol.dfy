/** The control-generation protocol (server/control.go, server/service.go) as a
    step machine. Each step is one lock-held section of one goroutine; a run gate
    (runMu) and the manager lock stay held between steps, and so does the
    life-cycle lock while a LoginResp is written. */
module Protocol {
  import opened Options
  import opened Lifecycle
  import Names
  import Registry

  /** An entry of ctlsByRunID. `id` identifies the entry object; `gate` identifies its runMu. */
  datatype Entry = Entry(ctl: Ref, id: nat, gate: nat, online: bool, onlineId: nat)

  datatype Core = Core(
    ctls: map<Ref, Ctl>,
    entries: map<string, Entry>,
    closed: bool,
    lastId: nat,
    reg: Registry.Reg,
    names: Names.Names,
    newClients: nat,
    closedClients: nat,
    cut: set<Ref>,       // controls whose connection the server has interrupted
    gone: set<Ref>)      // controls whose client has left

  datatype Tid =
    | Handler(c: Ref)      // handleConnection for the login that created control c
    | Worker(c: Ref)       // Control.worker of c
    | Closer(k: nat)       // a call of ControlManager.Close
    | Carrier(k: nat)      // handleConnection for the NewWorkConn that carries connection k

  /** The manager operations that go through a run gate. */
  datatype Kind = Add | Activate | Login | Remove | Work

  /** The immutable fields of the entry a thread has read. */
  datatype Seen = Seen(gate: nat, ent: nat, ctl: Ref)

  datatype Pc =
    | Read(kind: Kind)                           // about to read ctlsByRunID under cm.mu
    | WantGate(kind: Kind, seen: Seen)           // blocked on seen.gate
    | Recheck(kind: Kind, seen: Seen)            // holds the gate, about to read the map again
    | WantMgr(kind: Kind, maybe: Option<Seen>)   // holds the gate if any, blocked on cm.mu
    | InMgr(kind: Kind, maybe: Option<Seen>)     // holds the gate if any, and cm.mu
    | HaveRun(kind: Kind, seen: Seen)            // holds the gate of the current entry
    | Writing(seen: Seen)                        // holds the gate and lifecycleMu, writing LoginResp
    | Notify(prev: Ref)                          // about to call prev.Replaced
    | WaitBarrier                                // blocked on the handoff barrier
    | CloseTarget                                // about to call ctl.Close
    | Spawned | Serving | MarkClosing | CloseChan | Draining | ClosingProxies | LeaveMetrics | Finish
    | NextTarget
    | Done(ok: bool)

  datatype Thr = Thr(pc: Pc, ctl: Ref, todo: set<Ref>)

  datatype State = State(core: Core, threads: map<Tid, Thr>)

  ghost predicate Init(s: State) {
    s == State(Core(map[], map[], false, 0, Registry.EMPTY, Names.EMPTY, 0, 0, {}, {}), map[])
  }

  // ----- Locks -----

  function GateOf(pc: Pc): Option<nat> {
    match pc
    case Recheck(_, seen) => Some(seen.gate)
    case WantMgr(_, Some(seen)) => Some(seen.gate)
    case InMgr(_, Some(seen)) => Some(seen.gate)
    case HaveRun(_, seen) => Some(seen.gate)
    case Writing(seen) => Some(seen.gate)
    case _ => None
  }

  ghost predicate GateFree(s: State, g: nat) {
    forall u :: u in s.threads ==> GateOf(s.threads[u].pc) != Some(g)
  }

  ghost predicate MgrFree(s: State) {
    forall u :: u in s.threads ==> !s.threads[u].pc.InMgr?
  }

  ghost predicate LifeFree(s: State, c: Ref) {
    forall u :: u in s.threads ==> !(s.threads[u].pc.Writing? && s.threads[u].ctl == c)
  }

  // ----- Helpers of the steps -----

  function RunOf(k: Core, c: Ref): string {
    if c in k.ctls then k.ctls[c].run else ""
  }

  predicate Current(k: Core, c: Ref) {
    c in k.ctls && k.ctls[c].run in k.entries && k.entries[k.ctls[c].run].ctl == c
  }

  function SeenOf(e: Entry): Seen {
    Seen(e.gate, e.id, e.ctl)
  }

  /** lockCurrentRun finds no usable entry for the run. */
  predicate Unusable(k: Core, kind: Kind, r: string) {
    r !in k.entries || (k.closed && !kind.Remove?)
  }

  function AfterRemove(t: Tid): Pc {
    if t.Worker? then Finish else CloseTarget
  }

  /** Where a thread goes when its current operation fails. */
  function AfterFailure(t: Tid, kind: Kind): Pc {
    if kind.Remove? then AfterRemove(t) else if t.Carrier? then Done(false) else Read(Remove)
  }

  function Goto(s: State, t: Tid, pc: Pc): State
    requires t in s.threads
  {
    s.(threads := s.threads[t := s.threads[t].(pc := pc)])
  }

  function SetCtl(k: Core, c: Ref, x: Ctl): Core {
    k.(ctls := k.ctls[c := x])
  }

  /** interruptReadAndClose: the control's read loop will fail. */
  function Interrupt(s: State, c: Ref): State {
    s.(core := s.core.(cut := s.core.cut + {c}))
  }

  /** Reading from the control's connection fails, so its dispatcher is done. */
  predicate ReadFails(k: Core, c: Ref) {
    c in k.cut || c in k.gone
  }

  // ----- Gate operations: lockCurrentRun and the locks of Add -----

  function AfterRead(k: Core, t: Tid, thr: Thr, kind: Kind): Pc {
    var r := RunOf(k, thr.ctl);
    if kind.Add? then
      if r in k.entries then WantGate(Add, SeenOf(k.entries[r])) else WantMgr(Add, None)
    else if Unusable(k, kind, r) then AfterFailure(t, kind)
    else WantGate(kind, SeenOf(k.entries[r]))
  }

  function AfterGate(kind: Kind, seen: Seen): Pc {
    if kind.Add? then WantMgr(Add, Some(seen)) else Recheck(kind, seen)
  }

  function AfterRecheck(k: Core, t: Tid, thr: Thr, kind: Kind, seen: Seen): Pc {
    var r := RunOf(k, thr.ctl);
    if Unusable(k, kind, r) || k.entries[r].gate != seen.gate then AfterFailure(t, kind)
    else if kind.Login? || kind.Work? then HaveRun(kind, SeenOf(k.entries[r]))
    else WantMgr(kind, Some(SeenOf(k.entries[r])))
  }

  // ----- The section of Add under cm.mu -----

  /** The map still holds the entry object Add read, or still none. */
  predicate Unchanged(k: Core, r: string, maybe: Option<Seen>) {
    if maybe.None? then r !in k.entries else r in k.entries && k.entries[r].id == maybe.value.ent
  }

  predicate AddCommits(k: Core, c: Ref, maybe: Option<Seen>) {
    !k.closed && c in k.ctls && Unchanged(k, k.ctls[c].run, maybe) && k.ctls[c].state.Created?
  }

  function FirstAdd(k: Core, c: Ref): Core
    requires c in k.ctls
  {
    var id := k.lastId + 1;
    var x := k.ctls[c];
    k.(lastId := id, ctls := k.ctls[c := Admit(x, id)], entries := k.entries[x.run := Entry(c, id, id, false, 0)])
  }

  function ReplacingAdd(k: Core, c: Ref): Core
    requires c in k.ctls && k.ctls[c].run in k.entries && k.entries[k.ctls[c].run].ctl in k.ctls
  {
    var id := k.lastId + 1;
    var x := k.ctls[c];
    var prev := k.entries[x.run];
    var replaced := k.ctls[prev.ctl];
    k.(lastId := id,
       ctls := k.ctls[prev.ctl := MarkReplaced(replaced)]
                     [c := Admit(x, id).(barrier := ReplacedBarrier(replaced, prev.ctl))],
       entries := k.entries[x.run := Entry(c, id, prev.gate, prev.online, prev.onlineId)])
  }

  function CommitAdd(s: State, t: Tid, maybe: Option<Seen>): State
    requires t in s.threads
  {
    var k, c := s.core, s.threads[t].ctl;
    if AddCommits(k, c, maybe) then
      if maybe.None? then Goto(s.(core := FirstAdd(k, c)), t, WaitBarrier)
      else if k.entries[k.ctls[c].run].ctl in k.ctls then
        Goto(s.(core := ReplacingAdd(k, c)), t, Notify(k.entries[k.ctls[c].run].ctl))
      else s
    else if !k.closed && c in k.ctls && !Unchanged(k, k.ctls[c].run, maybe) then Goto(s, t, Read(Add))
    else Goto(s.(core := k.(lastId := if k.closed then k.lastId else k.lastId + 1)), t, AfterFailure(t, Add))
  }

  // ----- The sections of Activate and Remove under cm.mu -----

  /** The entry is still the one the thread locked, and it is `c`'s own. */
  predicate OwnsEntry(k: Core, c: Ref, seen: Seen) {
    && c in k.ctls && k.ctls[c].run in k.entries && k.entries[k.ctls[c].run].id == seen.ent
    && seen.ctl == c && seen.ent == k.ctls[c].id
  }

  function Activated(k: Core, c: Ref, now: int): Core
    requires c in k.ctls && k.ctls[c].run in k.entries
  {
    var x := k.ctls[c];
    var e := k.entries[x.run];
    k.(ctls := k.ctls[c := x.(activated := true)],
       entries := k.entries[x.run := e.(online := true, onlineId := e.id)],
       reg := Registry.Registered(k.reg, x.login, x.run, e.id, now))
  }

  predicate ActivationOpen(k: Core, c: Ref, seen: Seen) {
    !k.closed && OwnsEntry(k, c, seen) && k.ctls[c].state.Pending?
  }

  function CommitActivate(s: State, t: Tid, seen: Seen, now: int): State
    requires t in s.threads
  {
    var k, c := s.core, s.threads[t].ctl;
    if !ActivationOpen(k, c, seen) then Goto(s, t, AfterFailure(t, Activate))
    else if k.ctls[c].activated then Goto(s, t, Read(Login))
    else if Registry.Conflicts(k.reg, k.ctls[c].login, k.ctls[c].run) then Goto(s, t, AfterFailure(t, Activate))
    else Goto(s.(core := Activated(k, c, now)), t, Read(Login))
  }

  function Removed(k: Core, r: string, now: int): Core
    requires r in k.entries
  {
    var e := k.entries[r];
    k.(entries := k.entries - {r},
       reg := if e.online then Registry.MarkedOffline(k.reg, r, Some(e.onlineId), now) else k.reg)
  }

  function CommitRemove(s: State, t: Tid, seen: Seen, now: int): State
    requires t in s.threads
  {
    var k, c := s.core, s.threads[t].ctl;
    if OwnsEntry(k, c, seen) then Goto(s.(core := Removed(k, k.ctls[c].run, now)), t, AfterRemove(t))
    else Goto(s, t, AfterRemove(t))
  }

  // ----- completeLogin -----

  function BeginLogin(s: State, t: Tid, seen: Seen): State
    requires t in s.threads
  {
    var k, c := s.core, s.threads[t].ctl;
    if c in k.ctls && seen.ctl == c && seen.ent == k.ctls[c].id && CanStart(k.ctls[c])
    then Goto(s, t, Writing(seen))
    else Goto(s, t, AfterFailure(t, Login))
  }

  function EndLogin(s: State, t: Tid, ok: bool): State
    requires t in s.threads
  {
    var k, c := s.core, s.threads[t].ctl;
    if ok && c in k.ctls then
      var x := k.ctls[c].(loginWrites := k.ctls[c].loginWrites + 1);
      if CanStart(x) then
        var s' := Goto(s.(core := SetCtl(k, c, Start(x))), t, Done(true));
        s'.(threads := s'.threads[Worker(c) := Thr(Spawned, c, {})])
      else Goto(s.(core := SetCtl(k, c, x)), t, AfterFailure(t, Login))
    else Goto(s, t, AfterFailure(t, Login))
  }

  // ----- RegisterWorkConn -----

  predicate Accepts(k: Core, c: Ref, seen: Seen) {
    && c in k.ctls && seen.ctl == c && seen.ent == k.ctls[c].id
    && k.ctls[c].state.Running? && PoolHasRoom(k.ctls[c])
  }

  function DeliverStep(s: State, t: Tid, seen: Seen): State
    requires t in s.threads && t.Carrier?
  {
    var k, c := s.core, s.threads[t].ctl;
    if Accepts(k, c, seen) then Goto(s.(core := SetCtl(k, c, Deliver(k.ctls[c], t.k))), t, Done(true))
    else Goto(s, t, Done(false))
  }

  // ----- The remaining steps of handlers, workers and closers -----

  predicate BarrierPassed(k: Core, c: Ref) {
    && c in k.ctls
    && (k.ctls[c].barrier.Some? ==>
          k.ctls[c].barrier.value in k.ctls && k.ctls[k.ctls[c].barrier.value].doneCloses > 0)
  }

  function PassBarrier(s: State, t: Tid): State
    requires t in s.threads && s.threads[t].ctl in s.core.ctls
  {
    var c := s.threads[t].ctl;
    Goto(s.(core := SetCtl(s.core, c, s.core.ctls[c].(waited := true))), t, Read(Activate))
  }

  function CloseStep(s: State, t: Tid): State
    requires t in s.threads && s.threads[t].ctl in s.core.ctls
  {
    var c := s.threads[t].ctl;
    var pc := if t.Closer? then NextTarget else Done(false);
    Interrupt(Goto(s.(core := SetCtl(s.core, c, Close(s.core.ctls[c]))), t, pc), c)
  }

  /** Replaced: marks the replaced control again and interrupts its connection. */
  function NotifyStep(s: State, t: Tid, prev: Ref): State
    requires t in s.threads && prev in s.core.ctls
  {
    Interrupt(Goto(s.(core := SetCtl(s.core, prev, MarkReplaced(s.core.ctls[prev]))), t, WaitBarrier), prev)
  }

  function WorkerStep(s: State, c: Ref, pc: Pc): State
    requires Worker(c) in s.threads && c in s.core.ctls
  {
    var t, k, x := Worker(c), s.core, s.core.ctls[c];
    match pc
    case Spawned => Goto(s.(core := k.(newClients := k.newClients + 1)), t, Serving)
    case Serving => Goto(s, t, MarkClosing)
    case MarkClosing =>
      Interrupt(Goto(s.(core := SetCtl(k, c, if x.state.Running? then x.(state := Closing) else x)), t, CloseChan), c)
    case CloseChan => Goto(s.(core := SetCtl(k, c, x.(poolClosed := true))), t, Draining)
    case Draining =>
      if x.pool != [] then s.(core := SetCtl(k, c, DrainOne(x)))
      else Goto(s.(core := k.(names := Names.StartSweep(k.names, c))), t, ClosingProxies)
    case ClosingProxies => Goto(s.(core := SetCtl(k, c, x.(cleaned := true))), t, LeaveMetrics)
    case LeaveMetrics => Goto(s.(core := k.(closedClients := k.closedClients + 1)), t, Read(Remove))
    case Finish => Goto(s.(core := SetCtl(k, c, FinishLocked(x))), t, Done(true))
    case _ => s
  }

  function PickTarget(s: State, t: Tid, pick: Ref): State
    requires t in s.threads
  {
    var thr := s.threads[t];
    if thr.todo == {} then Goto(s, t, Done(true))
    else s.(threads := s.threads[t := Thr(Read(Remove), pick, thr.todo - {pick})])
  }

  /** ControlManager.Close will remove and close every control that is current when it starts. */
  function NewCloser(k: Core): Thr {
    Thr(NextTarget, 0, set r | r in k.entries :: k.entries[r].ctl)
  }

  // ----- Actions -----

  datatype Action =
    | Step(t: Tid, ok: bool, pick: Ref, now: int)   // thread t takes its next section
    | NewLogin(c: Ref, run: string, login: Registry.Login, poolCount: nat)
    | NewWorkConn(k: nat, c: Ref)                   // GetByID finds c running
    | CloseManager(k: nat)
    | Heartbeat(c: Ref)                             // heartbeatWorker calls ctl.Close
    | PeerLeaves(c: Ref)                            // the client's end of the control connection fails
    | TakeConn(c: Ref)                              // GetWorkConn receives from the pool
    | NameMove(c: Ref, move: Names.Move)            // a section of RegisterProxy, CloseProxy or the sweep

  /** Nothing the thread needs for its next section is held by another thread. */
  ghost predicate Unblocked(s: State, t: Tid)
    requires t in s.threads
  {
    var k, thr := s.core, s.threads[t];
    match thr.pc
    case Read(_) => MgrFree(s)
    case WantGate(_, seen) => GateFree(s, seen.gate)
    case Recheck(_, _) => MgrFree(s)
    case WantMgr(_, _) => MgrFree(s)
    case InMgr(kind, maybe) =>
      (kind.Add? || kind.Activate? ==> LifeFree(s, thr.ctl))
      && (kind.Add? && maybe.Some? && AddCommits(k, thr.ctl, maybe) ==>
            LifeFree(s, k.entries[k.ctls[thr.ctl].run].ctl))
    case HaveRun(_, _) => LifeFree(s, thr.ctl)
    case Writing(_) => true
    case Notify(prev) => LifeFree(s, prev)
    case WaitBarrier => BarrierPassed(k, thr.ctl)
    case CloseTarget => LifeFree(s, thr.ctl)
    case MarkClosing => LifeFree(s, thr.ctl)
    case Finish => LifeFree(s, thr.ctl)
    case _ => true
  }

  /** What the step needs from outside the locks: the dispatcher's read loop has
      failed and ended before the worker cleans up, and the sweep is over before it goes on. */
  predicate Ready(s: State, t: Tid, pick: Ref)
    requires t in s.threads
  {
    var thr := s.threads[t];
    && !thr.pc.Done?
    && (thr.pc.Serving? ==>
          ReadFails(s.core, thr.ctl) && thr.ctl in s.core.names.act && s.core.names.act[thr.ctl].Idle?)
    && (thr.pc.ClosingProxies? ==> thr.ctl in s.core.names.act && s.core.names.act[thr.ctl].Swept?)
    && (thr.pc.NextTarget? && thr.todo != {} ==> pick in thr.todo)
    && (thr.pc.Notify? ==> thr.pc.prev in s.core.ctls)
    && (thr.pc.HaveRun? && thr.pc.kind.Work? ==> t.Carrier?)
    && (thr.pc.InMgr? && !thr.pc.kind.Add? ==> thr.pc.maybe.Some?)
    && (thr.pc.NextTarget? || thr.ctl in s.core.ctls)
    && (IsWorkerPc(thr.pc) ==> t == Worker(thr.ctl))
  }

  predicate IsWorkerPc(pc: Pc) {
    pc.Spawned? || pc.Serving? || pc.MarkClosing? || pc.CloseChan? || pc.Draining? || pc.ClosingProxies?
    || pc.LeaveMetrics? || pc.Finish?
  }

  function StepOf(s: State, t: Tid, ok: bool, pick: Ref, now: int): State
    requires t in s.threads && Ready(s, t, pick)
  {
    var k, thr := s.core, s.threads[t];
    match thr.pc
    case Read(kind) => Goto(s, t, AfterRead(k, t, thr, kind))
    case WantGate(kind, seen) => Goto(s, t, AfterGate(kind, seen))
    case Recheck(kind, seen) => Goto(s, t, AfterRecheck(k, t, thr, kind, seen))
    case WantMgr(kind, maybe) => Goto(s, t, InMgr(kind, maybe))
    case InMgr(kind, maybe) =>
      if kind.Add? then CommitAdd(s, t, maybe)
      else if kind.Activate? then CommitActivate(s, t, maybe.value, now)
      else CommitRemove(s, t, maybe.value, now)
    case HaveRun(kind, seen) => if kind.Work? then DeliverStep(s, t, seen) else BeginLogin(s, t, seen)
    case Writing(_) => EndLogin(s, t, ok)
    case Notify(prev) => NotifyStep(s, t, prev)
    case WaitBarrier => PassBarrier(s, t)
    case CloseTarget => CloseStep(s, t)
    case NextTarget => PickTarget(s, t, pick)
    case Done(_) => s
    case _ => WorkerStep(s, thr.ctl, thr.pc)
  }

  predicate MoveAllowed(s: State, c: Ref, move: Names.Move) {
    && Worker(c) in s.threads && Names.Enabled(s.core.names, c, move)
    && (if move.Sweep? then s.threads[Worker(c)].pc.ClosingProxies?
        else if move.Advance? then s.threads[Worker(c)].pc.Serving? || s.threads[Worker(c)].pc.ClosingProxies?
        else s.threads[Worker(c)].pc.Serving?)
  }

  ghost predicate Enabled(s: State, a: Action) {
    match a
    case Step(t, ok, pick, now) => t in s.threads && Ready(s, t, pick) && Unblocked(s, t)
    case NewLogin(c, run, login, poolCount) =>
      c !in s.core.ctls && run != "" && Handler(c) !in s.threads && Worker(c) !in s.threads
      && c !in s.core.names.act
    case NewWorkConn(k, c) => Carrier(k) !in s.threads && Current(s.core, c) && s.core.ctls[c].state.Running?
    case CloseManager(k) => Closer(k) !in s.threads && MgrFree(s)
    case Heartbeat(c) => c in s.core.ctls && s.core.ctls[c].started && LifeFree(s, c)
    case PeerLeaves(c) => c in s.core.ctls
    case TakeConn(c) => c in s.core.ctls && s.core.ctls[c].pool != []
    case NameMove(c, move) => MoveAllowed(s, c, move)
  }

  ghost function Apply(s: State, a: Action): State
    requires Enabled(s, a)
  {
    var k := s.core;
    match a
    case Step(t, ok, pick, now) => StepOf(s, t, ok, pick, now)
    case NewLogin(c, run, login, poolCount) =>
      State(k.(ctls := k.ctls[c := NewControl(run, login, poolCount)], names := Names.NewOwner(k.names, c)),
            s.threads[Handler(c) := Thr(Read(Add), c, {})])
    case NewWorkConn(n, c) => s.(threads := s.threads[Carrier(n) := Thr(Read(Work), c, {})])
    case CloseManager(n) =>
      State(k.(closed := true), s.threads[Closer(n) := NewCloser(k)])
    case Heartbeat(c) => Interrupt(s.(core := SetCtl(k, c, Close(k.ctls[c]))), c)
    case PeerLeaves(c) => s.(core := k.(gone := k.gone + {c}))
    case TakeConn(c) => s.(core := SetCtl(k, c, Take(k.ctls[c])))
    case NameMove(c, move) => s.(core := k.(names := Names.Next(k.names, c, move)))
  }

  ghost predicate Next(s: State, s': State) {
    exists a :: Enabled(s, a) && s' == Apply(s, a)
  }

  /** A run of the server: any interleaving of any number of threads, from the empty server on. */
  ghost predicate IsRun(run: seq<State>) {
    && |run| > 0 && Init(run[0])
    && forall i :: 0 <= i < |run| - 1 ==> Next(run[i], run[i + 1])
  }

  ghost predicate Reachable(s: State) {
    exists run :: IsRun(run) && s == run[|run| - 1]
  }
}

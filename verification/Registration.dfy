/** RegisterProxy and CloseProxy from beginning to end, over every run: a request registers its
    proxy in all three places exactly if the name was free at each look, whatever other
    controls do in between, and closing takes it out of all three. */
module Registration {
  import opened Lifecycle
  import opened Protocol
  import opened CoreInvariant
  import opened ThreadInvariant
  import opened StepInvariant
  import opened Handoff
  import opened Ownership
  import Registry
  import N = Names

  /** What control c's proxy handler is doing. */
  function ActOf(s: State, c: Ref): N.Activity {
    if c in s.core.names.act then s.core.names.act[c] else N.Idle
  }

  function Held(s: State, c: Ref): map<string, N.Pxy> {
    N.Owned(s.core.names, c)
  }

  /** The handler is in the middle of a request. */
  predicate Busy(s: State, c: Ref) {
    c in s.core.names.act && N.Reading(ActOf(s, c)) && !ActOf(s, c).Idle?
  }

  // ----- Only the control's own sections move its handler -----

  lemma BusyIsServing(s: State, c: Ref)
    requires Inv(s) && Busy(s, c) && Worker(c) in s.threads
    ensures s.threads[Worker(c)].pc.Serving?
  {
    hide CoreOk, DomainOk, Exclusive, ThreadsOk, SeenOk, Ok, BarrierOk;
    ThreadHolds(s, Worker(c));
    InvParts(s);
    CtlHolds(s.core, c);
    hide Inv;
    assert !N.InSweep(s.core.names.act[c]);
  }

  lemma WorkerKeepsHandler(s: State, d: Ref, pc: Pc, c: Ref)
    requires Worker(d) in s.threads && d in s.core.ctls && c in s.core.names.act && (pc.Draining? ==> d != c)
    ensures ActOf(WorkerStep(s, d, pc), c) == ActOf(s, c) && Held(WorkerStep(s, d, pc), c) == Held(s, c)
    ensures c in WorkerStep(s, d, pc).core.names.act
  {
    hide DrainOne, FinishLocked;
  }

  lemma StepKeepsHandler(s: State, a: Action, c: Ref)
    requires Inv(s) && Enabled(s, a) && a.Step? && Busy(s, c)
    ensures ActOf(Apply(s, a), c) == ActOf(s, c) && Held(Apply(s, a), c) == Held(s, c)
    ensures c in Apply(s, a).core.names.act
  {
    hide Inv, Busy, ActOf, Held, Unblocked, WorkerStep;
    StepThread(s, a);
    var pc, d := s.threads[a.t].pc, s.threads[a.t].ctl;
    if IsWorkerPc(pc) {
      assert a.t == Worker(d) && d in s.core.ctls;
      if d == c { BusyIsServing(s, c); }
      BusyHasAct(s, c);
      WorkerKeepsHandler(s, d, pc, c);
    } else if pc.InMgr? {
      hide Enabled, Apply;
      CommitKeepsNames(s, a);
      BusyHasAct(s, c);
      SameNames(s, Apply(s, a), c);
    } else {
      hide Enabled, Apply;
      PlainKeepsNames(s, a);
      BusyHasAct(s, c);
      SameNames(s, Apply(s, a), c);
    }
  }

  lemma BusyHasAct(s: State, c: Ref)
    requires Busy(s, c)
    ensures c in s.core.names.act
  {
  }

  lemma SameNames(s: State, s': State, c: Ref)
    requires s'.core.names == s.core.names
    ensures ActOf(s', c) == ActOf(s, c) && Held(s', c) == Held(s, c)
  {
  }

  lemma CommitKeepsNames(s: State, a: Action)
    requires Enabled(s, a) && a.Step? && s.threads[a.t].pc.InMgr?
    ensures Apply(s, a).core.names == s.core.names
  {
    hide LifeFree, GateFree, MgrFree, Close, Registry.Registered, Registry.MarkedOffline, Registry.Conflicts, Admit,
      ReplacedBarrier, AfterFailure, Unblocked, AddCommits, ActivationOpen, OwnsEntry;
  }

  lemma PlainKeepsNames(s: State, a: Action)
    requires Enabled(s, a) && a.Step? && !s.threads[a.t].pc.InMgr? && !IsWorkerPc(s.threads[a.t].pc)
    ensures Apply(s, a).core.names == s.core.names
  {
    hide LifeFree, GateFree, MgrFree, Close, AfterRead, AfterRecheck, AfterFailure, Unblocked, CommitAdd,
      CommitActivate, CommitRemove, WorkerStep, Deliver, Start, Accepts;
  }

  /** Whatever else happens, a busy handler stays where it is. */
  lemma OthersKeepHandler(s: State, a: Action, c: Ref)
    requires Inv(s) && Enabled(s, a) && Busy(s, c) && !(a.NameMove? && a.c == c)
    ensures ActOf(Apply(s, a), c) == ActOf(s, c) && Held(Apply(s, a), c) == Held(s, c)
    ensures c in Apply(s, a).core.names.act
  {
    hide Inv, StepOf, Ready, Unblocked, LifeFree, MgrFree, NewCloser, Close, Take, N.Next;
    if a.Step? {
      hide Enabled, Apply;
      StepKeepsHandler(s, a, c);
    } else if a.NameMove? {
      N.MoveIsLocal(s.core.names, a.c, a.move);
    }
  }

  // ----- A request -----

  /** The handler works on registering p. */
  predicate Registering(s: State, c: Ref, p: N.Pxy) {
    c in s.core.names.act && ActOf(s, c) in {N.Checking(p), N.Claiming(p), N.Adding(p), N.Storing(p), N.RollingBack(p)}
  }

  /** The name is in use where the handler looks next. */
  predicate InUse(s: State, c: Ref, p: N.Pxy) {
    match ActOf(s, c)
    case Checking(_) => p.name in s.core.names.pxys
    case Claiming(_) => p.name in s.core.names.clientCfgs
    case Adding(_) => p.name in s.core.names.pxys
    case _ => false
  }

  /** In step k the handler of c takes its look and finds the name in use. */
  predicate LookFails(run: seq<State>, k: nat, c: Ref, p: N.Pxy)
    requires k + 1 < |run|
  {
    ActOf(run[k + 1], c) != ActOf(run[k], c) && InUse(run[k], c, p)
  }

  /** Some look between states i and k found the name in use. */
  ghost predicate Failed(run: seq<State>, i: nat, k: nat, c: Ref, p: N.Pxy)
    requires k < |run|
  {
    exists m: nat :: i < m < k && LookFails(run, m, c, p)
  }

  /** The proxy is in the control's own map and in both tables. */
  predicate InAllPlaces(s: State, c: Ref, p: N.Pxy) {
    && p.name in Held(s, c) && Held(s, c)[p.name] == p
    && p.name in s.core.names.pxys && s.core.names.pxys[p.name] == p
    && p.name in s.core.names.clientCfgs && s.core.names.clientCfgs[p.name] == p
  }

  lemma OwnAdvance(x: N.Names, c: Ref, p: N.Pxy, m: N.Move)
    requires N.Enabled(x, c, m)
    requires x.act[c] in {N.Checking(p), N.Claiming(p), N.Adding(p), N.Storing(p), N.RollingBack(p)}
    ensures var x' := N.Next(x, c, m);
            && m.Advance? && c in x'.act && x'.act[c] != x.act[c]
            && x'.act[c] == (match x.act[c]
                             case Checking(_) => if p.name in x.pxys then N.Idle else N.Claiming(p)
                             case Claiming(_) => if p.name in x.clientCfgs then N.Idle else N.Adding(p)
                             case Adding(_) => if p.name in x.pxys then N.RollingBack(p) else N.Storing(p)
                             case _ => N.Idle)
            && N.Owned(x', c) == if x.act[c].Storing? then N.Owned(x, c)[p.name := p] else N.Owned(x, c)
  {
  }

  /** One step of the run during a request. */
  lemma RequestStep(s: State, s': State, a: Action, c: Ref, p: N.Pxy)
    requires Inv(s) && Enabled(s, a) && s' == Apply(s, a) && Registering(s, c, p)
    ensures c in s'.core.names.act
    ensures ActOf(s', c) == ActOf(s, c) ==> Held(s', c) == Held(s, c)
    ensures ActOf(s', c) != ActOf(s, c) ==>
              && ActOf(s', c) == (match ActOf(s, c)
                                  case Checking(_) => if InUse(s, c, p) then N.Idle else N.Claiming(p)
                                  case Claiming(_) => if InUse(s, c, p) then N.Idle else N.Adding(p)
                                  case Adding(_) => if InUse(s, c, p) then N.RollingBack(p) else N.Storing(p)
                                  case _ => N.Idle)
              && Held(s', c) == if ActOf(s, c).Storing? then Held(s, c)[p.name := p] else Held(s, c)
  {
    hide Inv;
    if a.NameMove? && a.c == c {
      OwnAdvance(s.core.names, c, p, a.move);
      hide N.Next, N.Enabled;
    } else {
      hide Enabled, Apply;
      OthersKeepHandler(s, a, c);
    }
  }

  /** The request so far: nothing stored, and rolling back exactly if a look failed. */
  ghost predicate Underway(run: seq<State>, i: nat, k: nat, c: Ref, p: N.Pxy)
    requires i < k < |run|
  {
    && Registering(run[k], c, p) && Held(run[k], c) == Held(run[i], c)
    && (Failed(run, i, k, c, p) <==> ActOf(run[k], c).RollingBack?)
  }

  lemma FailedGrows(run: seq<State>, i: nat, k: nat, c: Ref, p: N.Pxy)
    requires i < k && k + 1 < |run|
    ensures Failed(run, i, k + 1, c, p) <==> Failed(run, i, k, c, p) || LookFails(run, k, c, p)
  {
    hide LookFails;
  }

  lemma UnderwayGoesOn(run: seq<State>, i: nat, k: nat, c: Ref, p: N.Pxy)
    requires IsRun(run) && i < k && k + 1 < |run| && Underway(run, i, k, c, p) && !ActOf(run[k + 1], c).Idle?
    ensures Underway(run, i, k + 1, c, p)
  {
    hide IsRun, Inv, Enabled, Apply, Failed;
    var a := ActionOf(run, k);
    RequestStep(run[k], run[k + 1], a, c, p);
    FailedGrows(run, i, k, c, p);
  }

  /** The request arrives in step i. */
  ghost predicate Requests(run: seq<State>, i: nat, c: Ref, name: string)
    requires i + 1 < |run|
  {
    Enabled(run[i], NameMove(c, N.Request(name))) && run[i + 1] == Apply(run[i], NameMove(c, N.Request(name)))
  }

  function NewPxy(s: State, c: Ref, name: string): N.Pxy {
    N.Pxy(c, name, s.core.names.nextSerial)
  }

  lemma RequestBegins(run: seq<State>, i: nat, c: Ref, name: string)
    requires i + 1 < |run| && Requests(run, i, c, name)
    ensures Underway(run, i, i + 1, c, NewPxy(run[i], c, name)) && ActOf(run[i + 1], c).Checking?
  {
  }

  lemma UnderwayUntil(run: seq<State>, i: nat, k: nat, c: Ref, name: string)
    requires IsRun(run) && i < k < |run| && Requests(run, i, c, name)
    requires forall m :: i < m <= k ==> !ActOf(run[m], c).Idle?
    ensures Underway(run, i, k, c, NewPxy(run[i], c, name))
    decreases k
  {
    hide IsRun, Requests, Underway;
    if k == i + 1 {
      RequestBegins(run, i, c, name);
    } else {
      UnderwayUntil(run, i, k - 1, c, name);
      UnderwayGoesOn(run, i, k - 1, c, NewPxy(run[i], c, name));
    }
  }

  lemma StoredIsEverywhere(s: State, c: Ref, p: N.Pxy)
    requires N.Inv(s.core.names) && c in s.core.names.act && ActOf(s, c).Idle?
    requires p.name in Held(s, c) && Held(s, c)[p.name] == p
    ensures InAllPlaces(s, c, p)
  {
    hide N.Exact, N.OwnerOk;
    var x := s.core.names;
    assert p in N.Stored(x, c);
    N.ShareIsOwn(x.pxys, N.ManagerShares(x), c, p);
    N.ShareIsOwn(x.clientCfgs, N.HoleShares(x), c, p);
  }

  lemma StoringIsNew(s: State, c: Ref, p: N.Pxy)
    requires N.Inv(s.core.names) && c in s.core.names.act && ActOf(s, c) == N.Storing(p)
    ensures p.name !in Held(s, c)
  {
    hide N.Exact;
    assert N.OwnerOk(s.core.names, c);
  }

  /** A request that has ended, over every run and with any sections of other controls in
      between: the proxy is registered in all three places exactly if no look found the name
      in use; otherwise the control holds what it held before. */
  lemma RegisteredIff(run: seq<State>, i: nat, j: nat, c: Ref, name: string)
    requires IsRun(run) && i + 1 < j < |run| && Requests(run, i, c, name)
    requires ActOf(run[j], c).Idle? && (forall m :: i < m < j ==> !ActOf(run[m], c).Idle?)
    ensures var p := NewPxy(run[i], c, name);
            && (!Failed(run, i, j, c, p) <==>
                  name !in Held(run[i], c) && Held(run[j], c) == Held(run[i], c)[name := p])
            && (Failed(run, i, j, c, p) <==> Held(run[j], c) == Held(run[i], c))
            && (!Failed(run, i, j, c, p) ==> InAllPlaces(run[j], c, p))
  {
    hide IsRun, Inv, Enabled, Apply, Failed, Requests, N.Inv;
    var p := NewPxy(run[i], c, name);
    UnderwayUntil(run, i, j - 1, c, name);
    var a := ActionOf(run, j - 1);
    RequestStep(run[j - 1], run[j], a, c, p);
    FailedGrows(run, i, j - 1, c, p);
    NamesOkInRun(run, j);
    NamesOkInRun(run, j - 1);
    if ActOf(run[j - 1], c).Storing? {
      StoringIsNew(run[j - 1], c, p);
      StoredIsEverywhere(run[j], c, p);
    }
  }

  // ----- A free name nobody else touches is registered -----

  /** Steps of others leave the name alone in both tables. */
  ghost predicate LeftAlone(run: seq<State>, i: nat, j: nat, c: Ref, name: string)
    requires j < |run|
  {
    forall k :: i < k < j && ActOf(run[k + 1], c) == ActOf(run[k], c) ==> SameName(run[k], run[k + 1], name)
  }

  predicate SameName(s: State, s': State, name: string) {
    && (name in s'.core.names.pxys <==> name in s.core.names.pxys)
    && (name in s'.core.names.clientCfgs <==> name in s.core.names.clientCfgs)
  }

  /** Free where the handler still has to look. */
  predicate StillFree(s: State, c: Ref, p: N.Pxy) {
    && !ActOf(s, c).RollingBack?
    && (ActOf(s, c).Checking? || ActOf(s, c).Claiming? ==>
          p.name !in s.core.names.pxys && p.name !in s.core.names.clientCfgs)
    && (ActOf(s, c).Adding? ==> p.name !in s.core.names.pxys)
  }

  lemma FreeAdvance(x: N.Names, c: Ref, p: N.Pxy, m: N.Move)
    requires N.Enabled(x, c, m) && x.act[c] in {N.Checking(p), N.Claiming(p), N.Adding(p), N.Storing(p)}
    ensures var x' := N.Next(x, c, m);
            && (x.act[c].Checking? ==> x'.pxys == x.pxys && x'.clientCfgs == x.clientCfgs)
            && (x.act[c].Claiming? ==> x'.pxys == x.pxys)
  {
  }

  lemma FreeStep(s: State, s': State, a: Action, c: Ref, p: N.Pxy)
    requires Inv(s) && Enabled(s, a) && s' == Apply(s, a) && Registering(s, c, p) && StillFree(s, c, p)
    requires ActOf(s', c) == ActOf(s, c) ==> SameName(s, s', p.name)
    ensures !InUse(s, c, p) && StillFree(s', c, p)
  {
    hide Inv;
    RequestStep(s, s', a, c, p);
    if a.NameMove? && a.c == c {
      FreeAdvance(s.core.names, c, p, a.move);
      hide N.Next, N.Enabled;
    } else {
      hide Enabled, Apply;
      OthersKeepHandler(s, a, c);
    }
  }

  lemma FreeUntil(run: seq<State>, i: nat, k: nat, c: Ref, name: string)
    requires IsRun(run) && i < k < |run| && Requests(run, i, c, name) && LeftAlone(run, i, k, c, name)
    requires forall m :: i < m < k ==> !ActOf(run[m], c).Idle?
    requires name !in run[i].core.names.pxys && name !in run[i].core.names.clientCfgs
    ensures StillFree(run[k], c, NewPxy(run[i], c, name)) && !Failed(run, i, k, c, NewPxy(run[i], c, name))
    decreases k
  {
    hide IsRun, Inv, Enabled, Apply, Requests, Failed, StillFree, SameName, LookFails, InUse;
    var p := NewPxy(run[i], c, name);
    if k == i + 1 {
      FreeBegins(run, i, c, name);
    } else {
      assert LeftAlone(run, i, k - 1, c, name);
      FreeUntil(run, i, k - 1, c, name);
      UnderwayUntil(run, i, k - 1, c, name);
      var a := ActionOf(run, k - 1);
      assert ActOf(run[k - 1 + 1], c) == ActOf(run[k - 1], c) ==> SameName(run[k - 1], run[k - 1 + 1], name);
      FreeStep(run[k - 1], run[k], a, c, p);
      LookIsFree(run, k - 1, c, p);
      FailedGrows(run, i, k - 1, c, p);
    }
  }

  lemma LookIsFree(run: seq<State>, k: nat, c: Ref, p: N.Pxy)
    requires k + 1 < |run| && !InUse(run[k], c, p)
    ensures !LookFails(run, k, c, p)
  {
    hide InUse;
  }

  lemma FreeBegins(run: seq<State>, i: nat, c: Ref, name: string)
    requires i + 1 < |run| && Requests(run, i, c, name)
    requires name !in run[i].core.names.pxys && name !in run[i].core.names.clientCfgs
    ensures StillFree(run[i + 1], c, NewPxy(run[i], c, name)) && !Failed(run, i, i + 1, c, NewPxy(run[i], c, name))
  {
    hide Requests, LookFails;
    RequestKeepsTables(run, i, c, name);
    RequestBegins(run, i, c, name);
    hide Underway;
  }

  lemma RequestKeepsTables(run: seq<State>, i: nat, c: Ref, name: string)
    requires i + 1 < |run| && Requests(run, i, c, name)
    ensures SameName(run[i], run[i + 1], name)
  {
  }

  /** A request for a name in neither table, which no other control touches until the request
      has ended, registers its proxy in all three places. */
  lemma FreeNameIsRegistered(run: seq<State>, i: nat, j: nat, c: Ref, name: string)
    requires IsRun(run) && i + 1 < j < |run| && Requests(run, i, c, name) && LeftAlone(run, i, j, c, name)
    requires ActOf(run[j], c).Idle? && (forall m :: i < m < j ==> !ActOf(run[m], c).Idle?)
    requires name !in run[i].core.names.pxys && name !in run[i].core.names.clientCfgs
    ensures InAllPlaces(run[j], c, NewPxy(run[i], c, name))
  {
    hide IsRun, Requests, LeftAlone, InAllPlaces, Failed, StillFree;
    FreeUntil(run, i, j, c, name);
    RegisteredIff(run, i, j, c, name);
  }

  // ----- Closing a proxy -----

  /** The CloseProxy message arrives in step i. */
  ghost predicate Closes(run: seq<State>, i: nat, c: Ref, name: string)
    requires i + 1 < |run|
  {
    Enabled(run[i], NameMove(c, N.Close(name))) && run[i + 1] == Apply(run[i], NameMove(c, N.Close(name)))
  }

  predicate Releasing(s: State, c: Ref, p: N.Pxy) {
    c in s.core.names.act && ActOf(s, c) in {N.Releasing(p, {}, false), N.Deleting(p, {}, false)}
  }

  lemma OwnRelease(x: N.Names, c: Ref, p: N.Pxy, m: N.Move)
    requires N.Enabled(x, c, m) && x.act[c] in {N.Releasing(p, {}, false), N.Deleting(p, {}, false)}
    ensures var x' := N.Next(x, c, m);
            && c in x'.act && N.Owned(x', c) == N.Owned(x, c)
            && x'.act[c] == if x.act[c].Releasing? then N.Deleting(p, {}, false) else N.Idle
  {
  }

  lemma ReleaseStep(s: State, s': State, a: Action, c: Ref, p: N.Pxy)
    requires Inv(s) && Enabled(s, a) && s' == Apply(s, a) && Releasing(s, c, p)
    ensures c in s'.core.names.act && Held(s', c) == Held(s, c) && (Releasing(s', c, p) || ActOf(s', c).Idle?)
  {
    hide Inv;
    if a.NameMove? && a.c == c {
      OwnRelease(s.core.names, c, p, a.move);
      hide N.Next, N.Enabled;
    } else {
      hide Enabled, Apply;
      OthersKeepHandler(s, a, c);
    }
  }

  lemma CloseBegins(run: seq<State>, i: nat, c: Ref, name: string)
    requires i + 1 < |run| && Closes(run, i, c, name) && name in Held(run[i], c)
    ensures Releasing(run[i + 1], c, Held(run[i], c)[name]) && Held(run[i + 1], c) == Held(run[i], c) - {name}
    ensures c in run[i].core.names.act
  {
  }

  lemma ReleasingUntil(run: seq<State>, i: nat, k: nat, c: Ref, name: string)
    requires IsRun(run) && i < k < |run| && Closes(run, i, c, name) && name in Held(run[i], c)
    requires forall m :: i < m < k ==> !ActOf(run[m], c).Idle?
    ensures c in run[k].core.names.act && Held(run[k], c) == Held(run[i], c) - {name}
    ensures Releasing(run[k], c, Held(run[i], c)[name]) || ActOf(run[k], c).Idle?
    decreases k
  {
    hide IsRun, Inv, Enabled, Apply, Closes, Releasing;
    if k == i + 1 {
      CloseBegins(run, i, c, name);
      ReleasingHasAct(run[k], c, Held(run[i], c)[name]);
    } else {
      ReleasingUntil(run, i, k - 1, c, name);
      var a := ActionOf(run, k - 1);
      ReleaseStep(run[k - 1], run[k], a, c, Held(run[i], c)[name]);
    }
  }

  lemma ReleasingHasAct(s: State, c: Ref, p: N.Pxy)
    requires Releasing(s, c, p)
    ensures c in s.core.names.act
  {
  }

  lemma IdleOwnsStored(s: State, c: Ref, p: N.Pxy, n: string)
    requires N.Inv(s.core.names) && c in s.core.names.act && ActOf(s, c).Idle? && p.owner == c
    requires (n in s.core.names.pxys && s.core.names.pxys[n] == p)
             || (n in s.core.names.clientCfgs && s.core.names.clientCfgs[n] == p)
    ensures p.name == n && n in Held(s, c) && Held(s, c)[n] == p
  {
    hide N.OwnerOk;
    var x := s.core.names;
    assert N.OwnerOk(x, c);
    assert p in N.Stored(x, c);
    var m :| m in N.Owned(x, c) && N.Owned(x, c)[m] == p;
    StoredUnderName(x, c, m);
  }

  lemma StoredUnderName(x: N.Names, c: Ref, m: string)
    requires c in x.act && N.OwnerOk(x, c) && m in N.Owned(x, c)
    ensures N.Owned(x, c)[m].name == m
  {
  }

  /** A CloseProxy that has ended, over every run: the proxy is out of the control's map and
      of both tables, and the control holds all its other proxies. */
  lemma CloseReleases(run: seq<State>, i: nat, j: nat, c: Ref, name: string, n: string)
    requires IsRun(run) && i < j < |run| && Closes(run, i, c, name) && name in Held(run[i], c)
    requires ActOf(run[j], c).Idle? && (forall m :: i < m < j ==> !ActOf(run[m], c).Idle?)
    ensures Held(run[j], c) == Held(run[i], c) - {name}
    ensures var p, x := Held(run[i], c)[name], run[j].core.names;
            (n in x.pxys ==> x.pxys[n] != p) && (n in x.clientCfgs ==> x.clientCfgs[n] != p)
  {
    hide IsRun, Closes, N.Inv;
    ReleasingUntil(run, i, j, c, name);
    NamesOkInRun(run, i);
    NamesOkInRun(run, j);
    var p, x := Held(run[i], c)[name], run[j].core.names;
    CloseBegins(run, i, c, name);
    HeldIsOwn(run[i], c, name);
    if (n in x.pxys && x.pxys[n] == p) || (n in x.clientCfgs && x.clientCfgs[n] == p) {
      IdleOwnsStored(run[j], c, p, n);
    }
  }

  lemma HeldIsOwn(s: State, c: Ref, name: string)
    requires N.Inv(s.core.names) && name in Held(s, c)
    ensures c in s.core.names.act ==> Held(s, c)[name].owner == c && Held(s, c)[name].name == name
  {
    hide N.OwnerOk, N.Exact;
    if c in s.core.names.act {
      assert N.OwnerOk(s.core.names, c);
      StoredUnderName(s.core.names, c, name);
      assert Held(s, c)[name] in N.Stored(s.core.names, c);
      N.ShareIsOwn(s.core.names.pxys, N.ManagerShares(s.core.names), c, Held(s, c)[name]);
    }
  }

  /** A CloseProxy for a name the control does not hold changes nothing. */
  lemma CloseOfUnknown(run: seq<State>, i: nat, c: Ref, name: string)
    requires i + 1 < |run| && Closes(run, i, c, name) && name !in Held(run[i], c)
    ensures run[i + 1] == run[i]
  {
  }
}

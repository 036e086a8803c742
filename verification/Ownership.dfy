/** Proxy names and registry records over every run of the server. */
module Ownership {
  import opened Lifecycle
  import opened Protocol
  import opened CoreInvariant
  import opened StepInvariant
  import opened Runs
  import opened Handoff
  import Registry
  import Names

  lemma NamesOkInRun(run: seq<State>, i: nat)
    requires IsRun(run) && i < |run|
    ensures Names.Inv(run[i].core.names)
  {
    hide IsRun, Inv, CoreOk, Names.Inv;
    RunOk(run, i);
    InvParts(run[i]);
    NamesInvOf(run[i].core);
  }

  /** At most one owner: two controls that hold the same name in the proxy manager, or
      in the NAT-hole table, are the same control holding the same proxy, and that proxy
      is what the table has under the name. */
  lemma OneOwnerPerName(run: seq<State>, i: nat, c: Ref, d: Ref, p: Names.Pxy, q: Names.Pxy)
    requires IsRun(run) && i < |run| && c in run[i].core.names.act && d in run[i].core.names.act && p.name == q.name
    requires var s := run[i].core.names;
             || (p in Names.ManagerShare(s, c) && q in Names.ManagerShare(s, d))
             || (p in Names.HoleShare(s, c) && q in Names.HoleShare(s, d))
    ensures c == d && p == q
  {
    hide IsRun, Names.ManagerShare, Names.HoleShare, Names.Exact, Names.OwnerOk;
    NamesOkInRun(run, i);
    var s := run[i].core.names;
    if p in Names.ManagerShare(s, c) && q in Names.ManagerShare(s, d) {
      Names.ShareIsOwn(s.pxys, Names.ManagerShares(s), c, p);
      Names.ShareIsOwn(s.pxys, Names.ManagerShares(s), d, q);
    } else {
      Names.ShareIsOwn(s.clientCfgs, Names.HoleShares(s), c, p);
      Names.ShareIsOwn(s.clientCfgs, Names.HoleShares(s), d, q);
    }
  }

  predicate SameTables(s: State, s': State) {
    s'.core.names.pxys == s.core.names.pxys && s'.core.names.clientCfgs == s.core.names.clientCfgs
  }

  lemma QuietCommit(s: State, a: Action)
    requires Enabled(s, a) && a.Step? && s.threads[a.t].pc.InMgr?
    ensures SameTables(s, Apply(s, a))
  {
    hide LifeFree, GateFree, MgrFree, Close, Registry.Registered, Registry.MarkedOffline, Registry.Conflicts, Admit,
      ReplacedBarrier, AfterFailure, Unblocked, AddCommits, ActivationOpen, OwnsEntry;
  }

  lemma QuietStep(s: State, a: Action)
    requires Enabled(s, a) && a.Step? && !s.threads[a.t].pc.InMgr?
    ensures SameTables(s, Apply(s, a))
  {
    hide LifeFree, GateFree, MgrFree, Close, AfterRead, AfterRecheck, AfterFailure, Unblocked, Accepts, CommitAdd,
      CommitActivate, CommitRemove, DrainOne;
  }

  lemma QuietTables(s: State, a: Action)
    requires Enabled(s, a) && !a.NameMove?
    ensures SameTables(s, Apply(s, a))
  {
    hide StepOf, Ready, Unblocked, LifeFree, MgrFree, Close, Take, NewCloser;
    if a.Step? {
      hide Enabled, Apply, SameTables;
      StepThread(s, a);
      if s.threads[a.t].pc.InMgr? { QuietCommit(s, a); } else { QuietStep(s, a); }
    }
  }

  /** The owner of a name is the control whose own handler or worker takes the step. */
  ghost predicate OwnerActs(s: State, s': State, owner: Ref) {
    exists m :: Enabled(s, NameMove(owner, m)) && s' == Apply(s, NameMove(owner, m))
  }

  /** No control's close, rollback or clean-up removes or overwrites another control's
      registration: along every run a name leaves either table only by a step of its owner. */
  lemma OnlyOwnerRemoves(run: seq<State>, i: nat, n: string)
    requires IsRun(run) && i + 1 < |run|
    ensures var s, s' := run[i].core.names, run[i + 1].core.names;
            && (n in s.pxys ==> (n in s'.pxys && s'.pxys[n] == s.pxys[n]) || OwnerActs(run[i], run[i + 1],
                s.pxys[n].owner))
            && (n in s.clientCfgs ==> (n in s'.clientCfgs && s'.clientCfgs[n] == s.clientCfgs[n])
                                      || OwnerActs(run[i], run[i + 1], s.clientCfgs[n].owner))
  {
    hide IsRun, Inv, Names.Inv;
    var a := ActionOf(run, i);
    NamesOkInRun(run, i);
    if a.NameMove? {
      MoveOfOwner(run[i], a, n);
    } else {
      hide Enabled, Apply;
      QuietTables(run[i], a);
    }
  }

  lemma MoveOfOwner(s: State, a: Action, n: string)
    requires Enabled(s, a) && a.NameMove? && Names.Inv(s.core.names)
    ensures var x, x' := s.core.names, Apply(s, a).core.names;
            && (n in x.pxys ==> (n in x'.pxys && x'.pxys[n] == x.pxys[n]) || OwnerActs(s, Apply(s, a), x.pxys[n].owner))
            && (n in x.clientCfgs ==> (n in x'.clientCfgs && x'.clientCfgs[n] == x.clientCfgs[n])
                                      || OwnerActs(s, Apply(s, a), x.clientCfgs[n].owner))
  {
    hide Names.Inv, Names.Next, Names.Enabled;
    Names.RemovesOnlyItsOwn(s.core.names, a.c, a.move, n);
    assert OwnerActs(s, Apply(s, a), a.c) by {
      assert a == NameMove(a.c, a.move);
    }
  }

  /** In every reachable state the registry's index is the exact inverse of its records. */
  lemma RegistryIsExact(run: seq<State>, i: nat, r: string, k: string)
    requires IsRun(run) && i < |run|
    ensures var reg := run[i].core.reg;
            && (r in reg.runIndex && reg.runIndex[r] == k <==> r != "" && k in reg.clients && reg.clients[k].runID == r)
            && (k in reg.clients ==> (reg.clients[k].online <==> reg.clients[k].runID != ""))
            && (k in reg.clients && reg.clients[k].rawClientID == "" ==> reg.clients[k].online)
  {
    hide IsRun, Inv, CoreOk, RegistryOk;
    RunOk(run, i);
    InvParts(run[i]);
    RegistryOf(run[i].core);
    RegistryInvOf(run[i].core);
  }
}

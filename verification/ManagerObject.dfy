/** The control manager as the source updates it (server/control.go): a map of entry
    objects. Each method is one section under cm.mu, or under a run gate and lifecycleMu,
    and changes the objects the way the step machine changes its core. */
module ManagerObject {
  import opened Options
  import opened Lifecycle
  import opened ControlObject
  import P = Protocol
  import Names
  import Registry

  class ControlEntry {
    const ctl: Control
    const id: nat
    const gate: nat
    var online: bool
    var onlineId: nat

    constructor (ctl: Control, id: nat, gate: nat, online: bool, onlineId: nat)
      ensures this.ctl == ctl && View() == P.Entry(ctl.self, id, gate, online, onlineId)
    {
      this.ctl, this.id, this.gate, this.online, this.onlineId := ctl, id, gate, online, onlineId;
    }

    ghost function View(): P.Entry
      reads this
    {
      P.Entry(ctl.self, id, gate, online, onlineId)
    }

    ghost function Seen(): P.Seen {
      P.Seen(gate, id, ctl.self)
    }
  }

  datatype Added = ManagerClosed | Retry | NotCreated | Added(replaced: Option<Ref>)

  class ControlManager {
    var ctlsByRunID: map<string, ControlEntry>
    const registry: Registry.ClientRegistry
    var closed: bool
    var lastId: nat
    ghost var made: set<ControlEntry>      // every entry ever created

    constructor ()
      ensures Valid() && View(map[]) == P.Core(map[], map[], false, 0, Registry.EMPTY, Names.EMPTY, 0, 0, {}, {})
      ensures fresh(registry)
    {
      registry := new Registry.ClientRegistry();
      ctlsByRunID, closed, lastId := map[], false, 0;
      made := {};
    }

    /** Entries are told apart by their IDs, and each is stored under its control's run. */
    ghost predicate Valid()
      reads this, registry
    {
      && registry.Valid()
      && (forall e, f :: e in made && f in made && e.id == f.id ==> e == f)
      && (forall e :: e in made ==> 0 < e.id <= lastId)
      && (forall r :: r in ctlsByRunID ==> ctlsByRunID[r] in made && ctlsByRunID[r].ctl.run == r)
    }

    ghost function Entries(): map<string, P.Entry>
      reads this, ctlsByRunID.Values
    {
      map r | r in ctlsByRunID :: ctlsByRunID[r].View()
    }

    /** The core of the step machine with the given controls; the parts neither the
        manager nor these controls hold stay initial. */
    ghost function View(ctls: map<Ref, Ctl>): P.Core
      reads this, registry, ctlsByRunID.Values
    {
      P.Core(ctls, Entries(), closed, lastId, registry.Snapshot(), Names.EMPTY, 0, 0, {}, {})
    }

    lemma EntryAt(r: string)
      ensures r in Entries() <==> r in ctlsByRunID
      ensures r in ctlsByRunID ==> Entries()[r] == ctlsByRunID[r].View()
    {
    }

    /** Comparing entry pointers is comparing their IDs. */
    lemma OwnsIff(ctl: Control, entry: ControlEntry)
      requires Valid() && entry in made && (entry.ctl.self == ctl.self ==> entry.ctl == ctl)
      ensures ctl.run in ctlsByRunID && ctlsByRunID[ctl.run] == entry && entry.ctl == ctl && entry.id == ctl.id
              <==> P.OwnsEntry(View(map[ctl.self := ctl.View()]), ctl.self, entry.Seen())
    {
      hide Registry.Inv;
    }

    method Register(login: Registry.Login, run: string, id: nat, now: int) returns (conflict: bool)
      requires Valid()
      modifies registry
      ensures Valid()
      ensures conflict <==> run != "" && Registry.Conflicts(old(registry.Snapshot()), login, run)
      ensures registry.Snapshot() == Registry.Registered(old(registry.Snapshot()), login, run, id, now)
      ensures conflict ==> registry.Snapshot() == old(registry.Snapshot())
    {
      hide Registry.Inv, Registry.OnlineAs, Registry.Registered, Registry.Conflicts;
      ghost var reg := registry.Snapshot();
      var _, refused := registry.RegisterWithControlID(login, run, id, now);
      if refused { ConflictKeeps(reg, login, run, id, now); }
      conflict := refused;
    }

    method MarkOffline(run: string, id: nat, now: int)
      requires Valid()
      modifies registry
      ensures Valid() && registry.Snapshot() == Registry.MarkedOffline(old(registry.Snapshot()), run, Some(id), now)
    {
      hide Registry.Inv, Registry.OnlineAs, Registry.MarkedOffline;
      registry.MarkOfflineByRunID(run, id, true, now);
    }

    ghost function SeenOf(e: ControlEntry?): Option<P.Seen> {
      if e == null then None else Some(e.Seen())
    }

    /** The first read of lockCurrentRun. */
    method FindRun(runID: string, allowClosed: bool) returns (e: ControlEntry?)
      ensures e == null <==> P.Unusable(View(map[]), if allowClosed then P.Remove else P.Login, runID)
      ensures e != null ==> runID in ctlsByRunID && e == ctlsByRunID[runID]
    {
      if runID !in ctlsByRunID || (closed && !allowClosed) { return null; }
      e := ctlsByRunID[runID];
    }

    /** The read of lockCurrentRun after it holds the gate. */
    method RecheckRun(runID: string, allowClosed: bool, gate: nat) returns (e: ControlEntry?)
      ensures e == null <==> P.Unusable(View(map[]), if allowClosed then P.Remove else P.Login, runID)
                             || ctlsByRunID[runID].gate != gate
      ensures e != null ==> runID in ctlsByRunID && e == ctlsByRunID[runID]
    {
      if (closed && !allowClosed) || runID !in ctlsByRunID || ctlsByRunID[runID].gate != gate { return null; }
      e := ctlsByRunID[runID];
    }

    /** The section of Add under cm.mu, with the entry it read before. */
    method CommitAdd(ctl: Control, prev: ControlEntry?) returns (r: Added)
      requires Valid()
      requires prev != null ==> prev in made && prev.ctl.self != ctl.self && !prev.ctl.state.Created?
      modifies this, ctl, if prev == null then {} else {prev.ctl}
      ensures Valid()
      ensures prev == null ==> AddedAs(old(View(map[ctl.self := ctl.View()])), View(map[ctl.self := ctl.View()]),
              ctl.self, None, r)
      ensures prev != null ==>
                AddedAs(old(View(map[ctl.self := ctl.View(), prev.ctl.self := prev.ctl.View()])),
                        View(map[ctl.self := ctl.View(), prev.ctl.self := prev.ctl.View()]), ctl.self,
                            Some(prev.Seen()), r)
    {
      hide Lifecycle.Admit, Lifecycle.MarkReplaced, ReplacedBarrier, Registry.Inv;
      if closed { return ManagerClosed; }
      if ctl.run !in ctlsByRunID && prev != null { return Retry; }
      if ctl.run in ctlsByRunID && prev != ctlsByRunID[ctl.run] { return Retry; }
      if prev == null {
        r := AddFirst(ctl);
      } else {
        r := AddReplacing(ctl, prev);
      }
    }

    /** A fresh ID; IDs never repeat. */
    method NextID() returns (id: nat)
      requires Valid()
      modifies `lastId
      ensures Valid() && id == lastId == old(lastId) + 1 && Entries() == old(Entries())
      ensures forall e :: e in made ==> e.id < id
    {
      lastId := lastId + 1;
      id := lastId;
    }

    method Store(ctl: Control, id: nat, gate: nat, online: bool, onlineId: nat)
      requires Valid() && 0 < id <= lastId && forall e :: e in made ==> e.id < id
      modifies `ctlsByRunID, `made
      ensures Valid() && Entries() == old(Entries())[ctl.run := P.Entry(ctl.self, id, gate, online, onlineId)]
    {
      hide Valid, Entries;
      var entry := new ControlEntry(ctl, id, gate, online, onlineId);
      Put(entry);
    }

    method Put(entry: ControlEntry)
      requires Valid() && 0 < entry.id <= lastId && forall e :: e in made ==> e.id < entry.id
      modifies `ctlsByRunID, `made
      ensures Valid() && Entries() == old(Entries())[entry.ctl.run := entry.View()]
    {
      hide Registry.Inv;
      ctlsByRunID := ctlsByRunID[entry.ctl.run := entry];
      made := made + {entry};
    }

    method AddFirst(ctl: Control) returns (r: Added)
      requires Valid() && ctl.run !in ctlsByRunID
      modifies this, ctl
      ensures Valid() && closed == old(closed)
      ensures r == if old(ctl.state).Created? then Added(None) else NotCreated
      ensures var k := old(View(map[ctl.self := ctl.View()]));
              View(map[ctl.self := ctl.View()])
              == if r.Added? then P.FirstAdd(k, ctl.self) else k.(lastId := k.lastId + 1)
    {
      hide Lifecycle.Admit, Valid, Entries;
      var id := NextID();
      var ok := ctl.Admit(id);
      if !ok { return NotCreated; }
      Store(ctl, id, id, false, 0);
      return Added(None);
    }

    method AddReplacing(ctl: Control, prev: ControlEntry) returns (r: Added)
      requires Valid() && ctl.run in ctlsByRunID && ctlsByRunID[ctl.run] == prev
      requires prev.ctl.self != ctl.self && !prev.ctl.state.Created?
      modifies this, ctl, prev.ctl
      ensures Valid() && closed == old(closed)
      ensures r == if old(ctl.state).Created? then Added(Some(prev.ctl.self)) else NotCreated
      ensures var k := old(View(map[ctl.self := ctl.View(), prev.ctl.self := prev.ctl.View()]));
              View(map[ctl.self := ctl.View(), prev.ctl.self := prev.ctl.View()])
              == if r.Added? then P.ReplacingAdd(k, ctl.self) else k.(lastId := k.lastId + 1)
    {
      hide Lifecycle.Admit, Lifecycle.MarkReplaced, ReplacedBarrier, Valid, Entries;
      ghost var ctls := map[ctl.self := ctl.View(), prev.ctl.self := prev.ctl.View()];
      var id := NextID();
      var ok := AdmitAfter(ctl, prev.ctl, id);
      if !ok { return NotCreated; }
      assert Entries()[ctl.run] == prev.View() by { EntryAt(ctl.run); }
      Store(ctl, id, prev.gate, prev.online, prev.onlineId);
      assert map[ctl.self := ctl.View(), prev.ctl.self := prev.ctl.View()]
             == ctls[prev.ctl.self := prev.ctl.View()][ctl.self := ctl.View()];
      return Added(Some(prev.ctl.self));
    }

    /** The section of Activate under the gate, cm.mu and lifecycleMu. */
    method CommitActivate(ctl: Control, entry: ControlEntry, now: int) returns (current: bool, conflict: bool)
      requires Valid() && entry in made && (entry.ctl.self == ctl.self ==> entry.ctl == ctl)
      modifies ctl, entry, registry
      ensures Valid()
      ensures var k, c := old(View(map[ctl.self := ctl.View()])), ctl.self;
              && (current <==> P.ActivationOpen(k, c, entry.Seen()))
              && (conflict <==> current && !k.ctls[c].activated
                                && ctl.run != "" && Registry.Conflicts(k.reg, ctl.login, ctl.run))
              && View(map[c := ctl.View()])
                 == if current && !k.ctls[c].activated && !conflict then P.Activated(k, c, now) else k
    {
      EntryAt(ctl.run);
      OwnsIff(ctl, entry);
      hide Registry.Registered, Registry.Conflicts, Valid, Entries, P.OwnsEntry, P.Activated;
      ghost var k := View(map[ctl.self := ctl.View()]);
      if closed || ctl.run !in ctlsByRunID || ctlsByRunID[ctl.run] != entry || entry.ctl != ctl || entry.id != ctl.id {
        return false, false;
      }
      if ctl.state != Pending { return false, false; }
      if ctl.activated { return true, false; }
      conflict := ActivateOwned(ctl, entry, now);
      current := true;
      if !conflict { ActivatedAs(k, View(map[ctl.self := ctl.View()]), ctl.self, now); }
    }

    method ActivateOwned(ctl: Control, entry: ControlEntry, now: int) returns (conflict: bool)
      requires Valid() && ctl.run in ctlsByRunID && ctlsByRunID[ctl.run] == entry && entry.ctl == ctl
      modifies ctl, entry, registry
      ensures Valid()
      ensures conflict <==> ctl.run != "" && Registry.Conflicts(old(registry.Snapshot()), ctl.login, ctl.run)
      ensures conflict ==> ctl.View() == old(ctl.View()) && Entries() == old(Entries())
                           && registry.Snapshot() == old(registry.Snapshot())
      ensures !conflict ==>
                && ctl.View() == old(ctl.View()).(activated := true)
                && Entries() == old(Entries())[ctl.run := old(entry.View()).(online := true, onlineId := entry.id)]
                && registry.Snapshot() == Registry.Registered(old(registry.Snapshot()), ctl.login, ctl.run, entry.id,
                    now)
    {
      hide Registry.Registered, Registry.Conflicts, Valid, Entries;
      ghost var entries := Entries();
      conflict := Register(ctl.login, ctl.run, entry.id, now);
      assert Entries() == entries;
      if conflict { return; }
      MarkOnline(ctl, entry);
    }

    method MarkOnline(ctl: Control, entry: ControlEntry)
      requires Valid() && ctl.run in ctlsByRunID && ctlsByRunID[ctl.run] == entry && entry.ctl == ctl
      modifies entry, ctl`activated
      ensures Valid() && ctl.View() == old(ctl.View()).(activated := true)
      ensures Entries() == old(Entries())[ctl.run := old(entry.View()).(online := true, onlineId := entry.id)]
    {
      hide Registry.Inv;
      entry.online := true;
      entry.onlineId := entry.id;
      ctl.activated := true;
    }

    /** The section of Remove under the gate and cm.mu. */
    method CommitRemove(ctl: Control, entry: ControlEntry, now: int) returns (removed: bool)
      requires Valid() && entry in made && (entry.ctl.self == ctl.self ==> entry.ctl == ctl)
      modifies this, registry
      ensures Valid()
      ensures var k := old(View(map[ctl.self := ctl.View()]));
              && (removed <==> P.OwnsEntry(k, ctl.self, entry.Seen()))
              && View(map[ctl.self := ctl.View()]) == if removed then P.Removed(k, ctl.run, now) else k
    {
      EntryAt(ctl.run);
      OwnsIff(ctl, entry);
      hide Registry.MarkedOffline, Valid, Entries, P.OwnsEntry;
      if ctl.run !in ctlsByRunID || ctlsByRunID[ctl.run] != entry || entry.ctl != ctl || entry.id != ctl.id {
        return false;
      }
      RemoveOwned(ctl.run, entry, now);
      return true;
    }

    method RemoveOwned(run: string, entry: ControlEntry, now: int)
      requires Valid() && run in ctlsByRunID && ctlsByRunID[run] == entry
      modifies `ctlsByRunID, registry
      ensures Valid() && Entries() == old(Entries()) - {run}
      ensures registry.Snapshot()
              == if old(entry.online) then Registry.MarkedOffline(old(registry.Snapshot()), run,
                  Some(old(entry.onlineId)), now)
                 else old(registry.Snapshot())
    {
      hide Registry.MarkedOffline, Valid, Entries;
      Delete(run);
      if entry.online {
        MarkOffline(run, entry.onlineId, now);
      }
    }

    method Delete(run: string)
      requires Valid()
      modifies `ctlsByRunID
      ensures Valid() && Entries() == old(Entries()) - {run}
    {
      hide Registry.Inv;
      ctlsByRunID := ctlsByRunID - {run};
    }

    /** completeLogin after lockCurrentRun: the gate and lifecycleMu are held while the
        LoginResp is written; `written` says whether that succeeded. */
    method CompleteLogin(ctl: Control, entry: ControlEntry, written: bool) returns (ok: bool)
      modifies ctl
      ensures ok <==> entry.ctl == ctl && entry.id == old(ctl.id) && CanStart(old(ctl.View())) && written
      ensures ctl.View() == if ok then Start(old(ctl.View()).(loginWrites := old(ctl.loginWrites) + 1))
                            else old(ctl.View())
    {
      if entry.ctl != ctl || entry.id != ctl.id { return false; }
      if ctl.state != Pending || !ctl.activated { return false; }
      if !written { return false; }
      ctl.loginWrites := ctl.loginWrites + 1;
      ok := ctl.StartLocked();
    }

    /** RegisterWorkConn after lockCurrentRun. */
    method RegisterWorkConn(ctl: Control, entry: ControlEntry, conn: Conn) returns (ok: bool)
      requires entry.ctl.self == ctl.self ==> entry.ctl == ctl
      modifies ctl
      ensures ok <==> P.Accepts(old(View(map[ctl.self := ctl.View()])), ctl.self, entry.Seen())
      ensures ctl.View() == if ok then Deliver(old(ctl.View()), conn) else old(ctl.View())
    {
      hide Deliver;
      if entry.ctl != ctl || entry.id != ctl.id { return false; }
      ok := ctl.Offer(conn);
    }

    /** The first section of Close: later operations are refused, and these controls
        are to be removed and closed. */
    method StartClose() returns (todo: set<Control>)
      requires Valid()
      modifies `closed
      ensures Valid() && closed
      ensures forall c :: c in todo <==> exists r :: r in ctlsByRunID && ctlsByRunID[r].ctl == c
      ensures (set ctl | ctl in todo :: ctl.self) == P.NewCloser(View(map[])).todo
    {
      hide Registry.Inv;
      closed := true;
      todo := {};
      var runs := ctlsByRunID.Keys;
      while runs != {}
        invariant runs <= ctlsByRunID.Keys
        invariant forall c :: c in todo <==> exists r :: r in ctlsByRunID && r !in runs && ctlsByRunID[r].ctl == c
        decreases |runs|
      {
        var run :| run in runs;
        runs := runs - {run};
        todo := todo + {ctlsByRunID[run].ctl};
      }
      SelvesAreTargets(todo);
    }

    /** The collected controls are the ones the closing thread will work through. */
    lemma SelvesAreTargets(todo: set<Control>)
      requires forall c :: c in todo <==> exists r :: r in ctlsByRunID && ctlsByRunID[r].ctl == c
      ensures (set ctl | ctl in todo :: ctl.self) == P.NewCloser(View(map[])).todo
    {
      var targets := P.NewCloser(View(map[])).todo;
      forall ctl | ctl in todo ensures ctl.self in targets {
        var r :| r in ctlsByRunID && ctlsByRunID[r].ctl == ctl;
        assert r in Entries() && Entries()[r].ctl == ctl.self;
      }
      forall c | c in targets ensures c in (set ctl | ctl in todo :: ctl.self) {
        var r :| r in Entries() && Entries()[r].ctl == c;
        assert ctlsByRunID[r].ctl in todo;
      }
    }
  }

  /** Admits the new control and marks the one it replaces. */
  method AdmitAfter(ctl: Control, oldCtl: Control, id: nat) returns (ok: bool)
    requires ctl != oldCtl
    modifies ctl, oldCtl
    ensures ok <==> old(ctl.state).Created?
    ensures ctl.View() == if ok
                          then Lifecycle.Admit(old(ctl.View()), id).(barrier := ReplacedBarrier(old(oldCtl.View()),
                              oldCtl.self))
                          else old(ctl.View())
    ensures oldCtl.View() == if ok then Lifecycle.MarkReplaced(old(oldCtl.View())) else old(oldCtl.View())
  {
    hide Lifecycle.Admit, Lifecycle.MarkReplaced, ReplacedBarrier;
    ok := ctl.Admit(id);
    if !ok { return; }
    var barrier := oldCtl.MarkReplaced();
    ctl.SetHandoffBarrier(barrier);
  }

  /** The outcome and the new core of Add's section, as the step machine has them. */
  ghost predicate AddedAs(k: P.Core, k': P.Core, c: Ref, maybe: Option<P.Seen>, r: Added)
    requires c in k.ctls && (maybe.Some? ==> maybe.value.ctl in k.ctls)
  {
    && (r.ManagerClosed? <==> k.closed)
    && (r.Retry? <==> !k.closed && !P.Unchanged(k, k.ctls[c].run, maybe))
    && (r.Added? <==> P.AddCommits(k, c, maybe))
    && (r.NotCreated? ==> k' == k.(lastId := k.lastId + 1))
    && (r.ManagerClosed? || r.Retry? ==> k' == k)
    && (r.Added? && maybe.None? ==> k' == P.FirstAdd(k, c))
    && (r.Added? && maybe.Some? && k.entries[k.ctls[c].run].ctl in k.ctls ==>
          k' == P.ReplacingAdd(k, c) && r.replaced == Some(maybe.value.ctl))
  }

  /** Activated, one component at a time. */
  lemma ActivatedAs(k: P.Core, k': P.Core, c: Ref, now: int)
    requires k.ctls.Keys == {c} && k.ctls[c].run in k.entries
    requires k'.ctls == map[c := k.ctls[c].(activated := true)]
    requires var e := k.entries[k.ctls[c].run];
             && k'.entries == k.entries[k.ctls[c].run := e.(online := true, onlineId := e.id)]
             && k'.reg == Registry.Registered(k.reg, k.ctls[c].login, k.ctls[c].run, e.id, now)
    requires k' == k.(ctls := k'.ctls, entries := k'.entries, reg := k'.reg)
    ensures k' == P.Activated(k, c, now)
  {
    hide Registry.Registered;
    assert k.ctls[c := k.ctls[c].(activated := true)] == k'.ctls;
  }

  lemma ConflictKeeps(reg: Registry.Reg, login: Registry.Login, runID: string, id: nat, now: int)
    requires Registry.Conflicts(reg, login, runID)
    ensures Registry.Registered(reg, login, runID, id, now) == reg
  {
  }
}

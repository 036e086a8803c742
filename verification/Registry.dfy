/** The client registry (server/registry/registry.go): records keyed by
    "{user}.{clientID}", with an index from run IDs to keys. */
module Registry {
  import opened Options

  /** One registry record. The zero time is 0; an empty `runID` is the offline marker. */
  datatype ClientInfo = ClientInfo(
    key: string,
    user: string,
    rawClientID: string,
    runID: string,
    controlID: nat,
    hostname: string,
    ip: string,
    version: string,
    wireProtocol: string,
    firstConnectedAt: int,
    lastConnectedAt: int,
    disconnectedAt: int,
    online: bool)

  /** The login data that is copied into a record. */
  datatype Login = Login(user: string, clientID: string, hostname: string, version: string, ip: string,
                         wireProtocol: string)

  datatype Reg = Reg(clients: map<string, ClientInfo>, runIndex: map<string, string>)

  const EMPTY := Reg(map[], map[])

  /** Keys are joined with a dot, so two different pairs can share a key. */
  function ComposeClientKey(user: string, id: string): string {
    if user == "" then id else if id == "" then user else user + "." + id
  }

  function KeyOf(login: Login, runID: string): string {
    ComposeClientKey(login.user, if login.clientID == "" then runID else login.clientID)
  }

  /** One key with its dots read the other way: the longer user ends in the shorter ID's head. */
  ghost predicate Regrouped(user: string, id: string, user': string, id': string) {
    exists w: string :: user == user' + "." + w && id' == w + "." + id
  }

  lemma KeyOfRegrouped(user: string, id: string, user': string, id': string)
    requires user != "" && id != "" && user' != "" && id' != "" && |user'| < |user|
    ensures ComposeClientKey(user, id) == ComposeClientKey(user', id') <==> Regrouped(user, id, user', id')
  {
    var key, key', n := user + "." + id, user' + "." + id', |user'|;
    if key == key' {
      assert user[..n] == key[..n] == key'[..n] == user';
      assert user[n] == key[n] == key'[n] == '.';
      var w := user[n + 1..];
      assert user == user' + "." + w;
      assert id' == key'[n + 1..] == key[n + 1..] == w + "." + id;
    }
    forall w: string | user == user' + "." + w && id' == w + "." + id ensures key == key' {
      assert key == user' + "." + w + "." + id == key';
    }
  }

  /** Which clients share a key, for all users and all non-empty IDs: two with users exactly if
      they are the same client or one is the other with its dots read differently; one without
      a user exactly if its ID spells the other's key. */
  lemma KeysCollideIff(user: string, id: string, user': string, id': string)
    requires id != "" && id' != ""
    ensures ComposeClientKey(user, id) == ComposeClientKey(user', id') <==>
              if user == "" then id == (if user' == "" then id' else user' + "." + id')
              else if user' == "" then id' == user + "." + id
              else (user == user' && id == id') || Regrouped(user, id, user', id') || Regrouped(user', id', user, id)
  {
    if user != "" && user' != "" {
      if |user'| < |user| {
        KeyOfRegrouped(user, id, user', id');
      } else if |user| < |user'| {
        KeyOfRegrouped(user', id', user, id);
      } else {
        var key, key' := user + "." + id, user' + "." + id';
        assert key[..|user|] == user && key'[..|user|] == user';
        assert key[|user| + 1..] == id && key'[|user| + 1..] == id';
      }
    }
  }

  /** Clients whose users are non-empty and have no dot share a key only if they are the same. */
  lemma DotFreeUsersAreApart(user: string, id: string, user': string, id': string)
    requires user != "" && user' != "" && '.' !in user && '.' !in user' && id != "" && id' != ""
    requires ComposeClientKey(user, id) == ComposeClientKey(user', id')
    ensures user == user' && id == id'
  {
    KeysCollideIff(user, id, user', id');
    forall w: string ensures user != user' + "." + w && user' != user + "." + w {
      assert '.' in user' + "." + w && '.' in user + "." + w;
    }
  }

  function SetClientOffline(info: ClientInfo, now: int): ClientInfo {
    info.(runID := "", controlID := 0, online := false, disconnectedAt := now)
  }

  /** An explicit client ID is refused while another run holds it online. */
  predicate Conflicts(reg: Reg, login: Login, runID: string) {
    var key := KeyOf(login, runID);
    && login.clientID != ""
    && key in reg.clients
    && reg.clients[key].online && reg.clients[key].runID != "" && reg.clients[key].runID != runID
  }

  /** Takes a run that moves to another key off its previous record. */
  function LeavePreviousKey(reg: Reg, key: string, runID: string, now: int): Reg {
    if runID in reg.runIndex && reg.runIndex[runID] != key then
      var previousKey := reg.runIndex[runID];
      var clients :=
        if previousKey in reg.clients && reg.clients[previousKey].runID == runID then
          if reg.clients[previousKey].rawClientID == "" then reg.clients - {previousKey}
          else reg.clients[previousKey := SetClientOffline(reg.clients[previousKey], now)]
        else reg.clients;
      Reg(clients, reg.runIndex - {runID})
    else reg
  }

  function OnlineRecord(login: Login, key: string, runID: string, controlID: nat, base: Option<ClientInfo>, now: int)
    : ClientInfo
  {
    var user := if base.Some? then base.value.user else login.user;
    var recordKey := if base.Some? then base.value.key else key;
    var first := if base.Some? && base.value.firstConnectedAt != 0 then base.value.firstConnectedAt else now;
    ClientInfo(recordKey, user, login.clientID, runID, controlID, login.hostname, login.ip, login.version,
               login.wireProtocol, first, now, 0, true)
  }

  /** What RegisterWithControlID leaves behind when it does not report a conflict. */
  function Registered(reg: Reg, login: Login, runID: string, controlID: nat, now: int): Reg {
    if runID == "" || Conflicts(reg, login, runID) then reg
    else
      var key := KeyOf(login, runID);
      var moved := LeavePreviousKey(reg, key, runID, now);
      var base := if key in reg.clients then Some(reg.clients[key]) else None;
      var runIndex :=
        if base.Some? && base.value.runID != "" then moved.runIndex - {base.value.runID} else moved.runIndex;
      Reg(moved.clients[key := OnlineRecord(login, key, runID, controlID, base, now)], runIndex[runID := key])
  }

  /** What markOfflineByRunID leaves behind; `controlID` is None for the unconditional form. */
  function MarkedOffline(reg: Reg, runID: string, controlID: Option<nat>, now: int): Reg {
    if runID !in reg.runIndex then reg
    else
      var key := reg.runIndex[runID];
      var clients :=
        if key in reg.clients && reg.clients[key].runID == runID
           && (controlID.None? || reg.clients[key].controlID == controlID.value) then
          if reg.clients[key].rawClientID == "" then reg.clients - {key}
          else reg.clients[key := SetClientOffline(reg.clients[key], now)]
        else reg.clients;
      Reg(clients, if key !in clients || clients[key].runID != runID then reg.runIndex - {runID} else reg.runIndex)
  }

  /** The index is the exact inverse of the records' run IDs, a record is online
      exactly when it names a run, and a record without an explicit client ID is
      never kept offline. */
  ghost predicate Inv(reg: Reg) {
    && (forall r :: r in reg.runIndex ==>
          r != "" && reg.runIndex[r] in reg.clients && reg.clients[reg.runIndex[r]].runID == r)
    && (forall k :: k in reg.clients ==> RecordOk(reg, k))
  }

  ghost predicate RecordOk(reg: Reg, k: string)
    requires k in reg.clients
  {
    var info := reg.clients[k];
    && info.key == k
    && (info.online <==> info.runID != "")
    && (info.runID != "" ==> info.runID in reg.runIndex && reg.runIndex[info.runID] == k)
    && (info.rawClientID == "" ==> info.online)
  }

  /** The control generation the registry shows online for a run, if any. */
  function OnlineAs(reg: Reg, runID: string): Option<nat> {
    if runID in reg.runIndex && reg.runIndex[runID] in reg.clients
       && reg.clients[reg.runIndex[runID]].online && reg.clients[reg.runIndex[runID]].runID == runID
    then Some(reg.clients[reg.runIndex[runID]].controlID)
    else None
  }

  /** The run a record is taken from when `login` claims its key, if any. */
  function Evicted(reg: Reg, login: Login, runID: string): Option<string> {
    var key := KeyOf(login, runID);
    if key in reg.clients && reg.clients[key].online && reg.clients[key].runID != runID
    then Some(reg.clients[key].runID)
    else None
  }

  lemma LeavePreviousKeyFacts(reg: Reg, key: string, runID: string, now: int)
    requires Inv(reg)
    ensures var m := LeavePreviousKey(reg, key, runID, now);
            && (forall r :: r in m.runIndex ==>
                  r in reg.runIndex && m.runIndex[r] == reg.runIndex[r]
                  && m.runIndex[r] in m.clients && m.clients[m.runIndex[r]] == reg.clients[m.runIndex[r]])
            && (forall r :: r in reg.runIndex && r != runID ==> r in m.runIndex)
            && (runID in m.runIndex ==> m.runIndex[runID] == key)
            && (forall k :: k in m.clients ==> k in reg.clients && RecordOk(m, k))
            && (key in reg.clients ==> key in m.clients && m.clients[key] == reg.clients[key])
  {
    var m := LeavePreviousKey(reg, key, runID, now);
    if runID in reg.runIndex && reg.runIndex[runID] != key {
      var previousKey := reg.runIndex[runID];
      assert RecordOk(reg, previousKey);
      forall r | r in m.runIndex
        ensures r in reg.runIndex && m.runIndex[r] == reg.runIndex[r]
                && m.runIndex[r] in m.clients && m.clients[m.runIndex[r]] == reg.clients[m.runIndex[r]]
      {
        assert m.runIndex[r] != previousKey;
      }
      forall k | k in m.clients ensures k in reg.clients && RecordOk(m, k) {
        assert RecordOk(reg, k);
      }
    }
  }

  /** Registration keeps the index exact, whichever keys collide and wherever the run was before. */
  lemma RegisterKeepsInv(reg: Reg, login: Login, runID: string, controlID: nat, now: int)
    requires Inv(reg)
    ensures Inv(Registered(reg, login, runID, controlID, now))
  {
    if runID != "" && !Conflicts(reg, login, runID) {
      var key := KeyOf(login, runID);
      var moved := LeavePreviousKey(reg, key, runID, now);
      LeavePreviousKeyFacts(reg, key, runID, now);
      var next := Registered(reg, login, runID, controlID, now);
      if key in reg.clients { assert RecordOk(reg, key); }
      forall k | k in next.clients ensures RecordOk(next, k) {
        if k != key { assert k in moved.clients && RecordOk(moved, k); }
      }
      forall r | r in next.runIndex
        ensures r != "" && next.runIndex[r] in next.clients && next.clients[next.runIndex[r]].runID == r
      {
        if r != runID {
          assert r in moved.runIndex && r in reg.runIndex;
          assert moved.runIndex[r] != key;
        }
      }
    }
  }

  /** A successful registration brings exactly its own run online under its own
      generation and takes at most one other run, the one that held the key, offline. */
  lemma RegisterEffect(reg: Reg, login: Login, runID: string, controlID: nat, now: int)
    requires Inv(reg) && runID != ""
    ensures Conflicts(reg, login, runID) ==>
              Registered(reg, login, runID, controlID, now) == reg
    ensures !Conflicts(reg, login, runID) ==>
              var next := Registered(reg, login, runID, controlID, now);
              && OnlineAs(next, runID) == Some(controlID)
              && (forall r :: r != runID ==>
                    OnlineAs(next, r) == if Evicted(reg, login, runID) == Some(r) then None else OnlineAs(reg, r))
    ensures Conflicts(reg, login, runID) <==> login.clientID != "" && Evicted(reg, login, runID).Some?
  {
    hide Inv, OnlineAs, Evicted, Registered;
    ConflictIff(reg, login, runID, controlID, now);
    if !Conflicts(reg, login, runID) {
      hide Conflicts;
      RegisterOwn(reg, login, runID, controlID, now);
      forall r | r != runID
        ensures OnlineAs(Registered(reg, login, runID, controlID, now), r)
                == if Evicted(reg, login, runID) == Some(r) then None else OnlineAs(reg, r)
      {
        RegisterOther(reg, login, runID, controlID, now, r);
      }
    }
  }

  lemma ConflictIff(reg: Reg, login: Login, runID: string, controlID: nat, now: int)
    requires Inv(reg)
    ensures Conflicts(reg, login, runID) <==> login.clientID != "" && Evicted(reg, login, runID).Some?
    ensures Conflicts(reg, login, runID) ==> Registered(reg, login, runID, controlID, now) == reg
  {
    var key := KeyOf(login, runID);
    if key in reg.clients { assert RecordOk(reg, key); }
  }

  lemma RegisterOwn(reg: Reg, login: Login, runID: string, controlID: nat, now: int)
    requires runID != "" && !Conflicts(reg, login, runID)
    ensures OnlineAs(Registered(reg, login, runID, controlID, now), runID) == Some(controlID)
  {
    hide LeavePreviousKey;
  }

  lemma RegisterOther(reg: Reg, login: Login, runID: string, controlID: nat, now: int, r: string)
    requires Inv(reg) && runID != "" && !Conflicts(reg, login, runID) && r != runID
    ensures OnlineAs(Registered(reg, login, runID, controlID, now), r)
            == if Evicted(reg, login, runID) == Some(r) then None else OnlineAs(reg, r)
  {
    var key := KeyOf(login, runID);
    var moved := LeavePreviousKey(reg, key, runID, now);
    LeavePreviousKeyFacts(reg, key, runID, now);
    if key in reg.clients { assert RecordOk(reg, key); }
    hide LeavePreviousKey, KeyOf;
    if r in moved.runIndex && moved.runIndex[r] != key {
      assert moved.clients[moved.runIndex[r]] == reg.clients[reg.runIndex[r]];
    }
  }

  // ----- What a record carries -----

  /** The same client: what a record keeps through going offline and coming back. */
  predicate SameClient(a: ClientInfo, b: ClientInfo) {
    a.key == b.key && a.user == b.user && a.firstConnectedAt == b.firstConnectedAt
  }

  /** `after` is `before` taken off its run at `now`. */
  predicate WentOffline(before: ClientInfo, after: ClientInfo, now: int) {
    && SameClient(before, after) && after.rawClientID == before.rawClientID && after.hostname == before.hostname
    && after.ip == before.ip && after.version == before.version && after.wireProtocol == before.wireProtocol
    && after.lastConnectedAt == before.lastConnectedAt
    && !after.online && after.runID == "" && after.controlID == 0 && after.disconnectedAt == now
  }

  /** The record of a login: its own data, online under its run and generation, connected now,
      and known since it was first seen. */
  lemma RegisteredRecord(reg: Reg, login: Login, runID: string, controlID: nat, now: int)
    requires Inv(reg) && runID != "" && !Conflicts(reg, login, runID)
    ensures var key, next := KeyOf(login, runID), Registered(reg, login, runID, controlID, now);
            && key in next.clients
            && var info := next.clients[key];
            && info.key == key && info.rawClientID == login.clientID && info.hostname == login.hostname
            && info.ip == login.ip && info.version == login.version && info.wireProtocol == login.wireProtocol
            && info.runID == runID && info.controlID == controlID && info.online
            && info.lastConnectedAt == now && info.disconnectedAt == 0
            && (if key in reg.clients && reg.clients[key].firstConnectedAt != 0 then SameClient(reg.clients[key], info)
                else info.firstConnectedAt == now)
            && (key !in reg.clients ==> info.user == login.user)
  {
    var key := KeyOf(login, runID);
    if key in reg.clients { assert RecordOk(reg, key); }
    hide KeyOf, LeavePreviousKey;
  }

  /** Every other record through a registration: the run's previous record is dropped if it had
      no client ID, and goes offline now if it had one; all others stay as they are. */
  lemma OtherRecordsOfRegister(reg: Reg, login: Login, runID: string, controlID: nat, now: int, k: string)
    requires Inv(reg) && runID != "" && !Conflicts(reg, login, runID) && k != KeyOf(login, runID)
    ensures var next := Registered(reg, login, runID, controlID, now);
            && (k in next.clients ==> k in reg.clients)
            && (k in reg.clients && reg.clients[k].runID != runID ==>
                  k in next.clients && next.clients[k] == reg.clients[k])
            && (k in reg.clients && reg.clients[k].runID == runID ==>
                  (k in next.clients <==> reg.clients[k].rawClientID != "")
                  && (k in next.clients ==> WentOffline(reg.clients[k], next.clients[k], now)))
  {
    if k in reg.clients { assert RecordOk(reg, k); }
    hide KeyOf;
  }

  /** Every record through markOffline: the one of the run, if it is the named generation's, is
      dropped without a client ID and otherwise kept offline with the time; all others stay. */
  lemma RecordsOfMarkOffline(reg: Reg, runID: string, controlID: Option<nat>, now: int, k: string)
    requires Inv(reg) && runID != ""
    ensures var next := MarkedOffline(reg, runID, controlID, now);
            && (k in next.clients ==> k in reg.clients)
            && (k in reg.clients ==>
                  var info := reg.clients[k];
                  var hit := info.runID == runID && (controlID.None? || info.controlID == controlID.value);
                  && (!hit ==> k in next.clients && next.clients[k] == reg.clients[k])
                  && (hit ==> (k in next.clients <==> reg.clients[k].rawClientID != "")
                              && (k in next.clients ==> WentOffline(reg.clients[k], next.clients[k], now))))
  {
    if k in reg.clients { assert RecordOk(reg, k); }
  }

  // ----- Every history of the registry -----

  datatype Op =
    | Register(login: Login, runID: string, controlID: nat)
    | Offline(runID: string, generation: Option<nat>)

  datatype TimedOp = TimedOp(op: Op, now: int)

  function AfterOp(reg: Reg, t: TimedOp): Reg {
    match t.op
    case Register(login, runID, controlID) => Registered(reg, login, runID, controlID, t.now)
    case Offline(runID, controlID) => MarkedOffline(reg, runID, controlID, t.now)
  }

  ghost predicate IsHistory(regs: seq<Reg>, ops: seq<TimedOp>) {
    && |regs| == |ops| + 1 && regs[0] == EMPTY
    && forall i :: 0 <= i < |ops| ==> regs[i + 1] == AfterOp(regs[i], ops[i])
  }

  lemma {:induction false} HistoryKeepsInv(regs: seq<Reg>, ops: seq<TimedOp>, i: nat)
    requires IsHistory(regs, ops) && i < |regs|
    ensures Inv(regs[i])
  {
    hide Inv, Registered, MarkedOffline;
    if i == 0 {
      EmptyIsExact();
    } else {
      HistoryKeepsInv(regs, ops, i - 1);
      assert regs[i - 1 + 1] == AfterOp(regs[i - 1], ops[i - 1]);
      match ops[i - 1].op {
        case Register(login, runID, controlID) =>
          RegisterKeepsInv(regs[i - 1], login, runID, controlID, ops[i - 1].now);
        case Offline(runID, controlID) => MarkOfflineKeepsInv(regs[i - 1], runID, controlID, ops[i - 1].now);
      }
    }
  }

  lemma EmptyIsExact()
    ensures Inv(EMPTY)
  {
  }

  /** The operation does not put a login without a client ID on key k. */
  predicate KeepsExplicit(op: Op, k: string) {
    op.Register? ==> op.login.clientID != "" || KeyOf(op.login, op.runID) != k
  }

  lemma OpKeepsClient(reg: Reg, t: TimedOp, k: string)
    requires Inv(reg) && k in reg.clients && reg.clients[k].rawClientID != "" && reg.clients[k].firstConnectedAt != 0
    requires KeepsExplicit(t.op, k)
    ensures var next := AfterOp(reg, t);
            k in next.clients && next.clients[k].rawClientID != "" && SameClient(reg.clients[k], next.clients[k])
  {
    hide Inv, Registered, MarkedOffline, Conflicts, KeyOf;
    match t.op {
      case Register(login, runID, controlID) =>
        if runID == "" || Conflicts(reg, login, runID) {
          RefusedChangesNothing(reg, login, runID, controlID, t.now);
        } else if k == KeyOf(login, runID) {
          RegisteredRecord(reg, login, runID, controlID, t.now);
        } else {
          OtherRecordsOfRegister(reg, login, runID, controlID, t.now, k);
        }
      case Offline(runID, controlID) =>
        if runID == "" {
          NoEmptyRun(reg, controlID, t.now);
        } else {
          RecordsOfMarkOffline(reg, runID, controlID, t.now, k);
        }
    }
  }

  lemma RefusedChangesNothing(reg: Reg, login: Login, runID: string, controlID: nat, now: int)
    requires runID == "" || Conflicts(reg, login, runID)
    ensures Registered(reg, login, runID, controlID, now) == reg
  {
  }

  lemma NoEmptyRun(reg: Reg, controlID: Option<nat>, now: int)
    requires Inv(reg)
    ensures MarkedOffline(reg, "", controlID, now) == reg
  {
  }

  /** Over every history: a client with an explicit ID is never forgotten and keeps its user and
      the time it was first seen, through any disconnections, reconnections and changes of run,
      unless a login without a client ID lands on its key. */
  lemma {:induction false} ExplicitClientIsRemembered(regs: seq<Reg>, ops: seq<TimedOp>, i: nat, j: nat, k: string)
    requires IsHistory(regs, ops) && i <= j < |regs| && k in regs[i].clients
    requires regs[i].clients[k].rawClientID != "" && regs[i].clients[k].firstConnectedAt != 0
    requires forall m :: i <= m < j ==> KeepsExplicit(ops[m].op, k)
    ensures k in regs[j].clients && regs[j].clients[k].rawClientID != ""
    ensures SameClient(regs[i].clients[k], regs[j].clients[k])
    decreases j
  {
    hide AfterOp, KeepsExplicit, Inv;
    if i < j {
      ExplicitClientIsRemembered(regs, ops, i, j - 1, k);
      HistoryKeepsInv(regs, ops, j - 1);
      assert regs[j - 1 + 1] == AfterOp(regs[j - 1], ops[j - 1]);
      OpKeepsClient(regs[j - 1], ops[j - 1], k);
    }
  }

  lemma MarkOfflineKeepsInv(reg: Reg, runID: string, controlID: Option<nat>, now: int)
    requires Inv(reg)
    ensures Inv(MarkedOffline(reg, runID, controlID, now))
  {
    if runID in reg.runIndex {
      var key := reg.runIndex[runID];
      var next := MarkedOffline(reg, runID, controlID, now);
      assert RecordOk(reg, key);
      forall k | k in next.clients ensures RecordOk(next, k) {
        assert RecordOk(reg, k);
      }
      forall r | r in next.runIndex
        ensures r != "" && next.runIndex[r] in next.clients && next.clients[next.runIndex[r]].runID == r
      {
        assert r in reg.runIndex;
        if next != reg { assert r != runID; assert reg.runIndex[r] != key; }
      }
    }
  }

  /** A generation takes its own run offline; a stale generation changes nothing at all. */
  lemma MarkOfflineEffect(reg: Reg, runID: string, controlID: nat, now: int)
    requires Inv(reg)
    ensures OnlineAs(reg, runID) != Some(controlID) ==>
              MarkedOffline(reg, runID, Some(controlID), now) == reg
    ensures OnlineAs(reg, runID) == Some(controlID) ==>
              OnlineAs(MarkedOffline(reg, runID, Some(controlID), now), runID) == None
    ensures forall r :: r != runID ==>
              OnlineAs(MarkedOffline(reg, runID, Some(controlID), now), r) == OnlineAs(reg, r)
  {
    var next := MarkedOffline(reg, runID, Some(controlID), now);
    if runID in reg.runIndex {
      var key := reg.runIndex[runID];
      assert RecordOk(reg, key);
      if OnlineAs(reg, runID) == Some(controlID) {
        forall r | r != runID ensures OnlineAs(next, r) == OnlineAs(reg, r) {
          if r in reg.runIndex { assert reg.runIndex[r] != key; }
        }
      }
    }
  }

  /** The registry object: every method holds its mutex throughout. */
  class ClientRegistry {
    var clients: map<string, ClientInfo>
    var runIndex: map<string, string>

    constructor ()
      ensures Snapshot() == EMPTY && Valid()
    {
      clients, runIndex := map[], map[];
    }

    function Snapshot(): Reg
      reads this
    {
      Reg(clients, runIndex)
    }

    ghost predicate Valid()
      reads this
    {
      Inv(Snapshot())
    }

    method RegisterWithControlID(login: Login, runID: string, controlID: nat, now: int)
      returns (key: string, conflict: bool)
      requires Valid()
      modifies this
      ensures Valid()
      ensures Snapshot() == Registered(old(Snapshot()), login, runID, controlID, now)
      ensures key == if runID == "" then "" else KeyOf(login, runID)
      ensures conflict <==> runID != "" && Conflicts(old(Snapshot()), login, runID)
      ensures runID != "" && !conflict ==> OnlineAs(Snapshot(), runID) == Some(controlID)
    {
      RegisterKeepsInv(Snapshot(), login, runID, controlID, now);
      if runID == "" { return "", false; }
      RegisterEffect(Snapshot(), login, runID, controlID, now);
      key := ComposeClientKey(login.user, if login.clientID == "" then runID else login.clientID);
      var exists_ := key in clients;
      var info := if exists_ then Some(clients[key]) else None;
      if login.clientID != "" && exists_ && info.value.online && info.value.runID != "" && info.value.runID != runID {
        return key, true;
      }
      if runID in runIndex && runIndex[runID] != key {
        var previousKey := runIndex[runID];
        if previousKey in clients && clients[previousKey].runID == runID {
          if clients[previousKey].rawClientID == "" {
            clients := clients - {previousKey};
          } else {
            clients := clients[previousKey := SetClientOffline(clients[previousKey], now)];
          }
        }
        runIndex := runIndex - {runID};
      }
      if exists_ && info.value.runID != "" {
        runIndex := runIndex - {info.value.runID};
      }
      clients := clients[key := OnlineRecord(login, key, runID, controlID, info, now)];
      runIndex := runIndex[runID := key];
      conflict := false;
    }

    method MarkOfflineByRunID(runID: string, controlID: nat, matchControlID: bool, now: int)
      requires Valid()
      modifies this
      ensures Valid()
      ensures Snapshot() ==
              MarkedOffline(old(Snapshot()), runID, if matchControlID then Some(controlID) else None, now)
      ensures matchControlID && OnlineAs(old(Snapshot()), runID) != Some(controlID) ==> Snapshot() == old(Snapshot())
    {
      MarkOfflineKeepsInv(Snapshot(), runID, if matchControlID then Some(controlID) else None, now);
      MarkOfflineEffect(Snapshot(), runID, controlID, now);
      if runID !in runIndex { return; }
      var key := runIndex[runID];
      if key in clients && clients[key].runID == runID && (!matchControlID || clients[key].controlID == controlID) {
        if clients[key].rawClientID == "" {
          clients := clients - {key};
        } else {
          clients := clients[key := SetClientOffline(clients[key], now)];
        }
      }
      if key !in clients || clients[key].runID != runID {
        runIndex := runIndex - {runID};
      }
    }
  }
}

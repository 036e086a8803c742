/** One control generation (server/control.go): its life-cycle state, the barrier
    it inherits from its predecessor and its pool of work connections. */
module Lifecycle {
  import opened Options
  import Registry

  type Ref = nat    // identity of a Control object
  type Conn = nat   // identity of a work connection

  const WORK_CONN_POOL_CAPACITY_OFFSET := 10

  datatype Phase = Created | Pending | Running | Closing | Closed

  function Rank(p: Phase): nat {
    match p
    case Created => 0
    case Pending => 1
    case Running => 2
    case Closing => 3
    case Closed => 4
  }

  /** The last block of fields is history: what already happened to the control,
      recorded so that properties of whole runs can be stated on one state. */
  datatype Ctl = Ctl(
    run: string,
    login: Registry.Login,
    poolCount: nat,
    state: Phase,
    id: nat,                      // 0 until ControlManager.Add assigns one
    activated: bool,
    barrier: Option<Ref>,         // the control whose doneCh is the handoff barrier
    doneCloses: nat,              // how often doneCh was closed
    pool: seq<Conn>,              // workConnCh
    poolClosed: bool,
    waited: bool,                 // WaitForHandoff returned
    loginWrites: nat,             // successful LoginResp writes
    started: bool,                // the worker was spawned
    cleaned: bool,                // the worker drained the pool and closed the proxies
    accepted: multiset<Conn>,     // connections ever put into the pool
    taken: multiset<Conn>,        // handed out by GetWorkConn
    drained: multiset<Conn>)      // closed by the worker's drain

  function NewControl(run: string, login: Registry.Login, poolCount: nat): Ctl {
    Ctl(run, login, poolCount, Created, 0, false, None, 0, [], false, false, 0, false, false,
        multiset{}, multiset{}, multiset{})
  }

  function Admit(x: Ctl, id: nat): Ctl {
    x.(id := id, state := Pending)
  }

  function FinishLocked(x: Ctl): Ctl {
    if x.state.Closed? then x else x.(state := Closed, doneCloses := x.doneCloses + 1)
  }

  function Close(x: Ctl): Ctl {
    match x.state
    case Created => FinishLocked(x.(state := Closing))
    case Pending => FinishLocked(x.(state := Closing))
    case Running => x.(state := Closing)
    case _ => x
  }

  /** markReplaced changes the state like Close; what it adds is the barrier it returns. */
  function MarkReplaced(x: Ctl): Ctl {
    Close(x)
  }

  function ReplacedBarrier(x: Ctl, self: Ref): Option<Ref> {
    match x.state
    case Created => None
    case Pending => x.barrier
    case _ => Some(self)
  }

  predicate CanStart(x: Ctl) {
    x.state.Pending? && x.activated
  }

  function Start(x: Ctl): Ctl {
    x.(state := Running, started := true)
  }

  predicate PoolHasRoom(x: Ctl) {
    |x.pool| < x.poolCount + WORK_CONN_POOL_CAPACITY_OFFSET
  }

  function Deliver(x: Ctl, conn: Conn): Ctl {
    x.(pool := x.pool + [conn], accepted := x.accepted + multiset{conn})
  }

  function Take(x: Ctl): Ctl
    requires x.pool != []
  {
    x.(pool := x.pool[1..], taken := x.taken + multiset{x.pool[0]})
  }

  function DrainOne(x: Ctl): Ctl
    requires x.pool != []
  {
    x.(pool := x.pool[1..], drained := x.drained + multiset{x.pool[0]})
  }

  /** The drain loop run to its end. */
  function DrainAll(x: Ctl): Ctl
    decreases |x.pool|
  {
    if x.pool == [] then x else DrainAll(DrainOne(x))
  }

  /** What holds of every control at all times. */
  ghost predicate Ok(x: Ctl) {
    && x.run != ""
    && x.doneCloses == (if x.state.Closed? then 1 else 0)
    && x.loginWrites == (if x.started then 1 else 0)
    && (x.state.Created? ==> x.id == 0)
    && (x.state.Pending? || x.state.Running? || x.state.Closing? ==> x.id > 0)
    && (x.id == 0 ==> x.barrier.None? && !x.activated && !x.waited)
    && (x.state.Running? || x.state.Closing? ==> x.started)
    && (x.state.Pending? ==> !x.started)
    && (x.started ==> x.activated && Rank(x.state) >= Rank(Running))
    && (x.state.Running? ==> !x.poolClosed)
    && (x.state.Closed? && x.started ==> x.cleaned)
    && (x.activated ==> x.waited && x.id > 0)
    && (x.cleaned ==> x.started && x.poolClosed && x.pool == [] && !x.state.Running?)
    && (x.poolClosed ==> x.started)
    && PoolOk(x)
  }

  /** Every accepted connection is in the pool, handed out, or closed by the drain,
      and the pool never exceeds its capacity. */
  ghost predicate PoolOk(x: Ctl) {
    && x.accepted == multiset(x.pool) + x.taken + x.drained
    && |x.pool| <= x.poolCount + WORK_CONN_POOL_CAPACITY_OFFSET
    && (!x.started ==> x.accepted == multiset{})
  }

  /** The part of a control that only moves forward. */
  ghost predicate Forward(x: Ctl, y: Ctl) {
    && y.run == x.run && y.login == x.login && y.poolCount == x.poolCount
    && Rank(x.state) <= Rank(y.state)
    && (x.id > 0 ==> y.id == x.id && y.barrier == x.barrier)
    && x.doneCloses <= y.doneCloses && x.loginWrites <= y.loginWrites
    && (x.activated ==> y.activated) && (x.waited ==> y.waited)
    && (x.started ==> y.started) && (x.cleaned ==> y.cleaned) && (x.poolClosed ==> y.poolClosed)
    && x.accepted <= y.accepted && x.taken <= y.taken && x.drained <= y.drained
  }

  lemma PopSplits(pool: seq<Conn>)
    requires pool != []
    ensures multiset(pool) == multiset{pool[0]} + multiset(pool[1..])
  {
    assert pool == [pool[0]] + pool[1..];
  }

  lemma TakeOk(x: Ctl)
    requires Ok(x) && x.pool != []
    ensures Ok(Take(x)) && Forward(x, Take(x))
  {
    PopSplits(x.pool);
  }

  lemma DrainOneOk(x: Ctl)
    requires Ok(x) && x.pool != []
    ensures Ok(DrainOne(x)) && Forward(x, DrainOne(x))
  {
    PopSplits(x.pool);
  }

  /** Draining closes exactly what was in the pool, each connection once. */
  lemma {:induction false} DrainAllClosesPool(x: Ctl)
    ensures DrainAll(x) == x.(pool := [], drained := x.drained + multiset(x.pool))
    decreases |x.pool|
  {
    if x.pool != [] {
      PopSplits(x.pool);
      DrainAllClosesPool(DrainOne(x));
    }
  }

  lemma DeliverOk(x: Ctl, conn: Conn)
    requires Ok(x) && x.state.Running? && PoolHasRoom(x)
    ensures Ok(Deliver(x, conn)) && Forward(x, Deliver(x, conn))
  {
  }

  /** Close and markReplaced finish a control without a worker and only mark one that has a worker. */
  lemma CloseOk(x: Ctl)
    requires Ok(x)
    ensures Ok(Close(x)) && Forward(x, Close(x))
    ensures Close(x).state == if x.started && !x.state.Closed? then Closing else Closed
    ensures Close(x) == x.(state := Close(x).state, doneCloses := Close(x).doneCloses)
    ensures Close(Close(x)) == Close(x)
  {
  }
}

/** One Control object as the source updates it (server/control.go). Every method is
    one section under lifecycleMu, or the worker's drain loop. */
module ControlObject {
  import opened Options
  import opened Lifecycle
  import Registry

  datatype Received = Got(conn: Conn) | ChanClosed | Empty

  /** What GetWorkConn meets when the pool is empty: the request cannot be sent, nothing
      arrives in time, or a connection does. */
  datatype Wait = SendFails | TimesOut | Arrives(conn: Conn)

  /** One attempt of GetWorkConnFromPool. */
  datatype Attempt = Attempt(wait: Wait, started: bool)

  class Control {
    const self: Ref
    const run: string
    const login: Registry.Login
    const poolCount: nat
    var state: Phase
    var id: nat
    var activated: bool
    var barrier: Option<Ref>
    var doneCloses: nat
    var pool: seq<Conn>
    var poolClosed: bool
    var interrupted: bool     // interruptOnce has fired: the connection is closed
    // History, as in Lifecycle.Ctl.
    ghost var waited: bool
    ghost var loginWrites: nat
    ghost var started: bool
    ghost var cleaned: bool
    ghost var accepted: multiset<Conn>
    ghost var taken: multiset<Conn>
    ghost var drained: multiset<Conn>

    ghost function View(): Ctl
      reads this
    {
      Ctl(run, login, poolCount, state, id, activated, barrier, doneCloses, pool, poolClosed, waited, loginWrites,
          started, cleaned, accepted, taken, drained)
    }

    constructor (self: Ref, run: string, login: Registry.Login, poolCount: nat)
      ensures this.self == self && View() == NewControl(run, login, poolCount) && !interrupted
    {
      this.self, this.run, this.login, this.poolCount := self, run, login, poolCount;
      state, id, activated, barrier, doneCloses := Created, 0, false, None, 0;
      pool, poolClosed, interrupted := [], false, false;
      waited, loginWrites, started, cleaned := false, 0, false, false;
      accepted, taken, drained := multiset{}, multiset{}, multiset{};
    }

    method Admit(id: nat) returns (ok: bool)
      modifies this
      ensures interrupted == old(interrupted)
      ensures ok <==> old(state).Created?
      ensures View() == if ok then Lifecycle.Admit(old(View()), id) else old(View())
    {
      if state != Created { return false; }
      this.id := id;
      state := Pending;
      return true;
    }

    method SetHandoffBarrier(barrier: Option<Ref>)
      modifies this
      ensures interrupted == old(interrupted)
      ensures View() == old(View()).(barrier := barrier)
    {
      this.barrier := barrier;
    }

    method FinishLocked()
      modifies this
      ensures interrupted == old(interrupted)
      ensures View() == Lifecycle.FinishLocked(old(View()))
    {
      if state == Closed { return; }
      state := Closed;
      doneCloses := doneCloses + 1;
    }

    /** interruptReadAndClose: the connection is closed once, whoever calls first. */
    method InterruptReadAndClose()
      modifies `interrupted
      ensures interrupted
    {
      if interrupted { return; }
      interrupted := true;
    }

    method Close()
      modifies this
      ensures View() == Lifecycle.Close(old(View())) && interrupted
    {
      if state == Created || state == Pending {
        state := Closing;
        FinishLocked();
      } else if state == Running {
        state := Closing;
      }
      InterruptReadAndClose();
    }

    /** Replaced: what Add's replacement does to its predecessor after the locks are released. */
    method Replaced()
      modifies this
      ensures View() == Lifecycle.MarkReplaced(old(View())) && interrupted
    {
      var _ := MarkReplaced();
      InterruptReadAndClose();
    }

    method MarkReplaced() returns (b: Option<Ref>)
      modifies this
      ensures interrupted == old(interrupted)
      ensures View() == Lifecycle.MarkReplaced(old(View()))
      ensures b == ReplacedBarrier(old(View()), self)
    {
      match state {
        case Created =>
          state := Closing;
          FinishLocked();
          return None;
        case Pending =>
          b := barrier;
          state := Closing;
          FinishLocked();
        case Running =>
          state := Closing;
          return Some(self);
        case _ =>
          return Some(self);
      }
    }

    method StartLocked() returns (ok: bool)
      modifies this
      ensures interrupted == old(interrupted)
      ensures ok <==> CanStart(old(View()))
      ensures View() == if ok then Start(old(View())) else old(View())
    {
      if state != Pending || !activated { return false; }
      state, started := Running, true;
      return true;
    }

    /** The select of RegisterWorkConn, under the run gate and lifecycleMu. */
    method Offer(conn: Conn) returns (ok: bool)
      modifies this
      ensures interrupted == old(interrupted)
      ensures ok <==> old(state).Running? && PoolHasRoom(old(View()))
      ensures View() == if ok then Deliver(old(View()), conn) else old(View())
    {
      if state != Running { return false; }
      if |pool| >= poolCount + WORK_CONN_POOL_CAPACITY_OFFSET { return false; }
      pool, accepted := pool + [conn], accepted + multiset{conn};
      return true;
    }

    /** One receive from workConnCh, as GetWorkConn does it. */
    method Receive() returns (r: Received)
      modifies this
      ensures interrupted == old(interrupted)
      ensures r.Got? <==> old(pool) != []
      ensures r.Got? ==> r.conn == old(pool)[0] && View() == Take(old(View()))
      ensures !r.Got? ==> View() == old(View()) && (r.ChanClosed? <==> poolClosed)
    {
      if pool == [] {
        return if poolClosed then ChanClosed else Empty;
      }
      r := Got(pool[0]);
      pool, taken := pool[1..], taken + multiset{pool[0]};
    }

    /** One iteration of the drain loop. */
    method DrainNext() returns (conn: Conn)
      requires pool != []
      modifies `pool, `drained
      ensures conn == old(pool)[0] && pool == old(pool)[1..]
      ensures View() == DrainOne(old(View()))
    {
      conn := pool[0];
      pool, drained := pool[1..], drained + multiset{conn};
    }

    /** The worker after the read loop ended: closes the channel, then closes what is in it.
        The connections come out in the order they went in, each once. */
    method CloseAndDrain() returns (closed: seq<Conn>)
      modifies `pool, `poolClosed, `drained
      ensures closed == old(pool)
      ensures View() == DrainAll(old(View()).(poolClosed := true))
    {
      hide DrainOne;
      poolClosed := true;
      closed := [];
      ghost var start := View();
      while pool != []
        invariant closed + pool == old(pool)
        invariant DrainAll(View()) == DrainAll(start)
        decreases |pool|
      {
        var conn := DrainNext();
        closed := closed + [conn];
      }
    }

    /** The worker once its dispatcher is done. */
    method MarkClosing()
      modifies this
      ensures View() == (if old(state).Running? then old(View()).(state := Closing) else old(View())) && interrupted
    {
      if state == Running { state := Closing; }
      InterruptReadAndClose();
    }

    /** GetWorkConn; `wait` is what happens if the pool is empty. It yields the head of the
        pool, or else the connection that arrives while the control is running, and nothing
        otherwise. What it returns is what is counted as taken. */
    method GetWorkConn(wait: Wait) returns (conn: Option<Conn>)
      requires Ok(View())
      modifies this
      ensures Ok(View()) && state == old(state) && drained == old(drained) && poolClosed == old(poolClosed)
      ensures conn.Some? <==> old(pool) != [] || (!old(poolClosed) && wait.Arrives? && old(state).Running?)
      ensures conn.Some? ==> conn.value == if old(pool) != [] then old(pool)[0] else wait.conn
      ensures pool == if old(pool) != [] then old(pool)[1..] else []
      ensures taken == old(taken) + if conn.Some? then multiset{conn.value} else multiset{}
      ensures accepted == old(accepted) + if conn.Some? && old(pool) == [] then multiset{conn.value} else multiset{}
    {
      var r := Receive();
      if r.Got? {
        TakeOk(old(View()));
        return Some(r.conn);
      }
      if r.ChanClosed? || !wait.Arrives? { return None; }
      ghost var x := View();
      var ok := Offer(wait.conn);
      if !ok { return None; }
      DeliverOk(x, wait.conn);
      ghost var y := View();
      r := Receive();
      TakeOk(y);
      return Some(r.conn);
    }
  }

  /** The connection attempt i meets if all earlier ones took theirs: the pool's in order, and
      after them what arrives while the control is running. */
  function Met(x: Ctl, attempts: seq<Attempt>, i: nat): Option<Conn>
    requires i < |attempts|
  {
    if i < |x.pool| then Some(x.pool[i])
    else if x.state.Running? && attempts[i].wait.Arrives? then Some(attempts[i].wait.conn)
    else None
  }

  /** These connections were met, in order, and could not be started. */
  ghost predicate ClosedSoFar(x: Ctl, attempts: seq<Attempt>, closed: seq<Conn>) {
    && |closed| <= |attempts|
    && forall i :: 0 <= i < |closed| ==> !attempts[i].started && Met(x, attempts, i) == Some(closed[i])
  }

  /** The pool after the first n attempts. */
  function PoolAfter(x: Ctl, n: nat): seq<Conn> {
    if n <= |x.pool| then x.pool[n..] else []
  }

  lemma NextMet(x: Ctl, attempts: seq<Attempt>, n: nat)
    requires n < |attempts|
    ensures PoolAfter(x, n) != [] ==> Met(x, attempts, n) == Some(PoolAfter(x, n)[0])
    ensures PoolAfter(x, n) != [] ==> PoolAfter(x, n + 1) == PoolAfter(x, n)[1..]
    ensures PoolAfter(x, n) == [] ==> PoolAfter(x, n + 1) == []
    ensures PoolAfter(x, n) == [] ==> (Met(x, attempts, n).Some? <==> x.state.Running? && attempts[n].wait.Arrives?)
    ensures PoolAfter(x, n) == [] && Met(x, attempts, n).Some? ==> Met(x, attempts, n).value == attempts[n].wait.conn
  {
  }

  lemma OneMoreClosed(x: Ctl, attempts: seq<Attempt>, closed: seq<Conn>, conn: Conn)
    requires ClosedSoFar(x, attempts, closed) && |closed| < |attempts|
    requires !attempts[|closed|].started && Met(x, attempts, |closed|) == Some(conn)
    ensures ClosedSoFar(x, attempts, closed + [conn])
  {
  }

  /** What n attempts come to: the connections met are closed until one is started, which is
      returned; giving up means that the last attempt met none, or that there are no more. */
  ghost predicate Outcome(x: Ctl, attempts: seq<Attempt>, conn: Option<Conn>, closed: seq<Conn>, n: nat) {
    && 1 <= n <= |attempts| && n - 1 <= |closed| <= n
    && ClosedSoFar(x, attempts, closed)
    && (conn.Some? ==> |closed| == n - 1 && attempts[n - 1].started && conn == Met(x, attempts, n - 1))
    && (conn.None? && |closed| < n ==> Met(x, attempts, n - 1).None?)
    && (conn.None? && |closed| == n ==> n == |attempts|)
  }

  /** There is one outcome. */
  lemma OutcomeIsUnique(x: Ctl, attempts: seq<Attempt>, conn: Option<Conn>, closed: seq<Conn>, n: nat,
                        conn': Option<Conn>, closed': seq<Conn>, n': nat)
    requires Outcome(x, attempts, conn, closed, n) && Outcome(x, attempts, conn', closed', n')
    ensures conn == conn' && closed == closed' && n == n'
  {
    ClosesAllItCan(x, attempts, conn, closed, n);
    ClosesAllItCan(x, attempts, conn', closed', n');
    assert |closed| == |closed'|;
    forall i | 0 <= i < |closed| ensures closed[i] == closed'[i] {
      assert Met(x, attempts, i) == Some(closed[i]);
      assert Met(x, attempts, i) == Some(closed'[i]);
    }
  }

  /** What comes after the closed connections is no connection to close. */
  lemma ClosesAllItCan(x: Ctl, attempts: seq<Attempt>, conn: Option<Conn>, closed: seq<Conn>, n: nat)
    requires Outcome(x, attempts, conn, closed, n)
    ensures |closed| < |attempts| ==> attempts[|closed|].started || Met(x, attempts, |closed|).None?
  {
  }

  /** If the k-th attempt is the first that can be started and the pool reaches that far, the
      k-th pooled connection is returned and the ones before it are closed. */
  lemma FirstStartedIsReturned(x: Ctl, attempts: seq<Attempt>, conn: Option<Conn>, closed: seq<Conn>, n: nat, k: nat)
    requires Outcome(x, attempts, conn, closed, n) && k < |attempts| && k < |x.pool|
    requires attempts[k].started && forall i :: 0 <= i < k ==> !attempts[i].started
    ensures conn == Some(x.pool[k]) && closed == x.pool[..k]
  {
    assert Outcome(x, attempts, Some(x.pool[k]), x.pool[..k], k + 1);
    OutcomeIsUnique(x, attempts, conn, closed, n, Some(x.pool[k]), x.pool[..k], k + 1);
  }

  /** GetWorkConnFromPool (server/proxy/proxy.go): at most poolCount + 1 attempts, each with
      what happens if the pool is empty and whether StartWorkConn can be written. What it
      takes from the control is what it closes and what it returns. */
  method GetWorkConnFromPool(ctl: Control, attempts: seq<Attempt>)
    returns (conn: Option<Conn>, closed: seq<Conn>, n: nat)
    requires Ok(ctl.View()) && |attempts| == ctl.poolCount + 1
    modifies ctl
    ensures Ok(ctl.View()) && ctl.state == old(ctl.state) && ctl.drained == old(ctl.drained)
    ensures Outcome(old(ctl.View()), attempts, conn, closed, n)
    ensures ctl.taken == old(ctl.taken) + multiset(closed) + if conn.Some? then multiset{conn.value} else multiset{}
  {
    hide Ok, ClosedSoFar, Met, PoolAfter;
    ghost var x := ctl.View();
    closed, n, conn := [], 0, None;
    NothingClosed(x, attempts);
    while n < ctl.poolCount + 1
      invariant 0 <= n <= ctl.poolCount + 1 && |closed| == n
      invariant Ok(ctl.View()) && ctl.state == x.state && ctl.drained == x.drained && ctl.poolClosed == x.poolClosed
      invariant ctl.taken == x.taken + multiset(closed)
      invariant ctl.pool == PoolAfter(x, n) && ClosedSoFar(x, attempts, closed)
    {
      var a := attempts[n];
      if ctl.state == Running { RunningIsOpen(ctl.View()); }
      NextMet(x, attempts, n);
      var taken := ctl.GetWorkConn(a.wait);
      assert taken == Met(x, attempts, n);
      n := n + 1;
      if taken.None? { return; }
      if !a.started {
        OneMoreClosed(x, attempts, closed, taken.value);
        closed := closed + [taken.value];
      } else {
        conn := taken;
        return;
      }
    }
  }

  lemma NothingClosed(x: Ctl, attempts: seq<Attempt>)
    ensures ClosedSoFar(x, attempts, []) && PoolAfter(x, 0) == x.pool
  {
  }

  lemma RunningIsOpen(x: Ctl)
    requires Ok(x) && x.state.Running?
    ensures !x.poolClosed
  {
    hide PoolOk;
  }
}

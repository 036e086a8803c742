/** The two name tables and one step of a control's proxy handler as the source updates
    them (server/proxy/proxy.go, pkg/nathole/controller.go, server/control.go). */
module NameObjects {
  import opened N = Names

  /** proxy.Manager */
  class Manager {
    var pxys: map<string, Pxy>

    constructor ()
      ensures pxys == map[]
    {
      pxys := map[];
    }

    method Exist(name: string) returns (ok: bool)
      ensures ok <==> name in pxys
    {
      ok := name in pxys;
    }

    /** A name in use is never overwritten. */
    method Add(name: string, pxy: Pxy) returns (ok: bool)
      modifies this
      ensures ok <==> name !in old(pxys)
      ensures pxys == if ok then old(pxys)[name := pxy] else old(pxys)
    {
      if name in pxys { return false; }
      pxys := pxys[name := pxy];
      return true;
    }

    method Del(name: string)
      modifies this
      ensures pxys == old(pxys) - {name}
    {
      pxys := pxys - {name};
    }
  }

  /** The listening clients of nathole.Controller; an entry stands for the proxy that made it. */
  class Controller {
    var clientCfgs: map<string, Pxy>

    constructor ()
      ensures clientCfgs == map[]
    {
      clientCfgs := map[];
    }

    method ListenClient(name: string, pxy: Pxy) returns (ok: bool)
      modifies this
      ensures ok <==> name !in old(clientCfgs)
      ensures clientCfgs == if ok then old(clientCfgs)[name := pxy] else old(clientCfgs)
    {
      if name in clientCfgs { return false; }
      clientCfgs := clientCfgs[name := pxy];
      return true;
    }

    method CloseClient(name: string)
      modifies this
      ensures clientCfgs == old(clientCfgs) - {name}
    {
      clientCfgs := clientCfgs - {name};
    }
  }

  /** A request up to the claim of the name, alone. */
  lemma LooksOf(x: Names, c: Owner, name: string)
    requires Enabled(x, c, Move.Request(name))
    ensures var p := Pxy(c, name, x.nextSerial);
            var x1 := Next(x, c, Move.Request(name));
            && Enabled(x1, c, Move.Advance)
            && var x2 := Next(x1, c, Move.Advance);
            && x2 == x1.(act := if name in x.pxys then x.act else x.act[c := Claiming(p)])
            && (name !in x.pxys ==>
                  && Enabled(x2, c, Move.Advance)
                  && var x3 := Next(x2, c, Move.Advance);
                  x3 == if name in x.clientCfgs then x1.(act := x.act)
                        else x1.(act := x.act[c := Adding(p)], clientCfgs := x.clientCfgs[name := p]))
  {
    var p := Pxy(c, name, x.nextSerial);
    assert x.act[c := Checking(p)][c := Idle] == x.act;
    assert x.act[c := Checking(p)][c := Claiming(p)] == x.act[c := Claiming(p)];
    assert x.act[c := Claiming(p)][c := Idle] == x.act;
    assert x.act[c := Claiming(p)][c := Adding(p)] == x.act[c := Adding(p)];
  }

  /** The rest of it, alone. */
  lemma StoresOf(x: Names, c: Owner, p: Pxy)
    requires Enabled(x, c, Move.Advance) && x.act[c] == Adding(p) && p.name !in x.pxys
    ensures var x1 := Next(x, c, Move.Advance);
            && Enabled(x1, c, Move.Advance)
            && Next(x1, c, Move.Advance) == x.(act := x.act[c := Idle], pxys := x.pxys[p.name := p],
                                              proxies := x.proxies[c := x.proxies[c][p.name := p]])
  {
    assert x.act[c := Storing(p)][c := Idle] == x.act[c := Idle];
  }

  /** Both tables, with what each control holds and is about to do. */
  class Tables {
    const manager: Manager
    const controller: Controller
    var proxies: map<Owner, map<string, Pxy>>
    var act: map<Owner, Activity>
    var nextSerial: nat

    constructor ()
      ensures View() == EMPTY && fresh(manager) && fresh(controller)
    {
      manager := new Manager();
      controller := new Controller();
      proxies, act, nextSerial := map[], map[], 0;
    }

    ghost function View(): Names
      reads this, manager, controller
    {
      N.Names.Names(manager.pxys, controller.clientCfgs, proxies, act, nextSerial)
    }

    /** The next lock section of the handler or worker of control c: the step machine's
        Advance, which keeps the ownership invariant. */
    method Advance(c: Owner)
      requires Enabled(View(), c, Move.Advance) && Inv(View())
      modifies this, manager, controller
      ensures View() == Next(old(View()), c, Move.Advance) && Inv(View())
    {
      hide Inv;
      MoveKeepsInv(View(), c, Move.Advance);
      match act[c] {
        case Checking(p) =>
          var taken := manager.Exist(p.name);
          act := act[c := if taken then Idle else Claiming(p)];
        case Claiming(p) =>
          var ok := controller.ListenClient(p.name, p);
          act := act[c := if ok then Adding(p) else Idle];
        case Adding(p) =>
          var ok := manager.Add(p.name, p);
          act := act[c := if ok then Storing(p) else RollingBack(p)];
        case RollingBack(p) =>
          controller.CloseClient(p.name);
          act := act[c := Idle];
        case Storing(p) =>
          proxies := proxies[c := proxies[c][p.name := p]];
          act := act[c := Idle];
        case Releasing(p, rest, sweep) =>
          controller.CloseClient(p.name);
          act := act[c := Deleting(p, rest, sweep)];
        case Deleting(p, rest, sweep) =>
          manager.Del(p.name);
          act := act[c := AfterClose(rest, sweep)];
      }
    }

    /** RegisterProxy when no other control acts in between: it succeeds exactly if the name is
        in neither table, and then the proxy is in both and in the control's own map; otherwise
        everything is as before. */
    method RegisterProxy(c: Owner, name: string) returns (ok: bool)
      requires Enabled(View(), c, Move.Request(name)) && Inv(View())
      modifies this, manager, controller
      ensures Inv(View()) && act == old(act) && nextSerial == old(nextSerial) + 1
      ensures ok <==> name !in old(manager.pxys) && name !in old(controller.clientCfgs)
      ensures var p := Pxy(c, name, old(nextSerial));
              if ok then
                && manager.pxys == old(manager.pxys)[name := p]
                && controller.clientCfgs == old(controller.clientCfgs)[name := p]
                && proxies == old(proxies)[c := old(proxies)[c][name := p]]
              else manager.pxys == old(manager.pxys) && controller.clientCfgs == old(controller.clientCfgs)
                   && proxies == old(proxies)
    {
      hide Inv, Next, Enabled;
      var p := Pxy(c, name, nextSerial);
      WasIdle(View(), c, name, Adding(p));
      ok := Claim(c, name);
      if ok { Store(c, p); }
    }

    /** Only an idle control starts a request. */
    lemma WasIdle(x: Names, c: Owner, name: string, a: Activity)
      requires Enabled(x, c, Move.Request(name))
      ensures c in x.act && x.act[c := a][c := Idle] == x.act
    {
    }

    /** The request, Manager.Exist and Controller.ListenClient. */
    method Claim(c: Owner, name: string) returns (ok: bool)
      requires Enabled(View(), c, Move.Request(name)) && Inv(View())
      modifies this, manager, controller
      ensures Inv(View()) && (ok <==> name !in old(manager.pxys) && name !in old(controller.clientCfgs))
      ensures !ok ==> View() == old(View()).(nextSerial := old(nextSerial) + 1)
      ensures ok ==> Enabled(View(), c, Move.Advance)
      ensures var p := Pxy(c, name, old(nextSerial));
              ok ==> View() == old(View()).(nextSerial := old(nextSerial) + 1, act := old(act)[c := Adding(p)],
                                            clientCfgs := old(controller.clientCfgs)[name := p])
    {
      hide Inv;
      MoveKeepsInv(View(), c, Move.Request(name));
      ghost var x := View();
      var p := Pxy(c, name, nextSerial);
      act := act[c := Checking(p)];
      nextSerial := nextSerial + 1;
      assert View() == Next(x, c, Move.Request(name));
      LooksOf(x, c, name);
      hide Next;
      Advance(c);
      if act[c] == Idle { return false; }
      Advance(c);
      ok := act[c] != Idle;
    }

    /** Manager.Add and the control's own map. */
    method Store(c: Owner, p: Pxy)
      requires Enabled(View(), c, Move.Advance) && Inv(View()) && act[c] == Adding(p) && p.name !in manager.pxys
      modifies this, manager, controller
      ensures Inv(View())
      ensures View() == old(View()).(act := old(act)[c := Idle], pxys := old(manager.pxys)[p.name := p],
                                     proxies := old(proxies)[c := old(proxies)[c][p.name := p]])
    {
      hide Inv;
      StoresOf(View(), c, p);
      hide Next;
      Advance(c);
      Advance(c);
    }

    /** CloseProxy up to the point where the proxy is out of the control's own map. */
    method CloseProxy(c: Owner, name: string)
      requires Enabled(View(), c, Move.Close(name)) && Inv(View())
      modifies this
      ensures View() == Next(old(View()), c, Move.Close(name)) && Inv(View())
    {
      hide Inv;
      MoveKeepsInv(View(), c, Move.Close(name));
      if name !in proxies[c] { return; }
      act := act[c := Releasing(proxies[c][name], {}, false)];
      proxies := proxies[c := proxies[c] - {name}];
    }
  }
}

/** Proxy-name ownership: RegisterProxy and CloseProxy of many controls, and the
    clean-up of their workers, interleaved between their lock sections
    (server/control.go, server/proxy/proxy.go, server/proxy/xtcp.go,
    pkg/nathole/controller.go). */
module Names {
  type Owner = nat

  /** A proxy object; `serial` tells apart two objects with one owner and name. */
  datatype Pxy = Pxy(owner: Owner, name: string, serial: nat)

  /** What the single goroutine that handles a control's proxies is about to do.
      The dispatcher's read loop runs the handlers one after the other, and the
      worker sweeps only after that loop has ended. */
  datatype Activity =
    | Idle
    | Checking(p: Pxy)                       // Manager.Exist
    | Claiming(p: Pxy)                       // XTCPProxy.Run: Controller.ListenClient
    | Adding(p: Pxy)                         // Manager.Add
    | RollingBack(p: Pxy)                    // deferred pxy.Close after a failed Add
    | Storing(p: Pxy)                        // ctl.proxies[name] = pxy
    | Releasing(p: Pxy, rest: set<Pxy>, sweep: bool)  // closeProxy: pxy.Close, Controller.CloseClient
    | Deleting(p: Pxy, rest: set<Pxy>, sweep: bool)   // closeProxy: Manager.Del
    | Sweeping(rest: set<Pxy>)               // the worker's loop over the proxies it took out
    | Swept

  datatype Names = Names(
    pxys: map<string, Pxy>,                  // Manager.pxys
    clientCfgs: map<string, Pxy>,            // Controller.clientCfgs
    proxies: map<Owner, map<string, Pxy>>,   // each control's proxies
    act: map<Owner, Activity>,
    nextSerial: nat)

  const EMPTY := Names(map[], map[], map[], map[], 0)

  datatype Move =
    | Request(name: string)                  // a NewProxy message arrives
    | Close(name: string)                    // a CloseProxy message arrives
    | Advance                                // the next lock section of the current handler
    | Sweep(p: Pxy)                          // the worker picks its next proxy

  function Owned(s: Names, c: Owner): map<string, Pxy> {
    if c in s.proxies then s.proxies[c] else map[]
  }

  predicate Enabled(s: Names, c: Owner, m: Move) {
    && c in s.act && c in s.proxies
    && match m
       case Request(_) => s.act[c].Idle?
       case Close(_) => s.act[c].Idle?
       case Advance => !s.act[c].Idle? && !s.act[c].Sweeping? && !s.act[c].Swept?
       case Sweep(p) => s.act[c].Sweeping? && p in s.act[c].rest
  }

  /** The dispatcher's read loop is at work, or nobody. */
  predicate Reading(a: Activity) {
    match a
    case Releasing(_, _, sweep) => !sweep
    case Deleting(_, _, sweep) => !sweep
    case Sweeping(_) => false
    case Swept => false
    case _ => true
  }

  /** The worker's sweep is going on or over. */
  predicate InSweep(a: Activity) {
    match a
    case Releasing(_, _, sweep) => sweep
    case Deleting(_, _, sweep) => sweep
    case Sweeping(_) => true
    case Swept => true
    case _ => false
  }

  function Become(s: Names, c: Owner, a: Activity): Names {
    s.(act := s.act[c := a])
  }

  function AfterClose(rest: set<Pxy>, sweep: bool): Activity {
    if !sweep then Idle else if rest == {} then Swept else Sweeping(rest)
  }

  function Next(s: Names, c: Owner, m: Move): Names
    requires Enabled(s, c, m)
  {
    match m
    case Request(name) =>
      Become(s, c, Checking(Pxy(c, name, s.nextSerial))).(nextSerial := s.nextSerial + 1)
    case Close(name) =>
      if name !in s.proxies[c] then s
      else Become(s, c, Releasing(s.proxies[c][name], {}, false)).(proxies := s.proxies[c := s.proxies[c] - {name}])
    case Sweep(p) =>
      Become(s, c, Releasing(p, s.act[c].rest - {p}, true))
    case Advance =>
      match s.act[c]
      case Checking(p) => if p.name in s.pxys then Become(s, c, Idle) else Become(s, c, Claiming(p))
      case Claiming(p) =>
        if p.name in s.clientCfgs then Become(s, c, Idle)
        else Become(s, c, Adding(p)).(clientCfgs := s.clientCfgs[p.name := p])
      case Adding(p) =>
        if p.name in s.pxys then Become(s, c, RollingBack(p))
        else Become(s, c, Storing(p)).(pxys := s.pxys[p.name := p])
      case RollingBack(p) => Become(s, c, Idle).(clientCfgs := s.clientCfgs - {p.name})
      case Storing(p) => Become(s, c, Idle).(proxies := s.proxies[c := s.proxies[c][p.name := p]])
      case Releasing(p, rest, sweep) =>
        Become(s, c, Deleting(p, rest, sweep)).(clientCfgs := s.clientCfgs - {p.name})
      case Deleting(p, rest, sweep) => Become(s, c, AfterClose(rest, sweep)).(pxys := s.pxys - {p.name})
  }

  function NewOwner(s: Names, c: Owner): Names {
    s.(proxies := s.proxies[c := map[]], act := s.act[c := Idle])
  }

  /** The worker takes the control's proxies out in one section. */
  function StartSweep(s: Names, c: Owner): Names {
    var rest := Owned(s, c).Values;
    s.(proxies := s.proxies[c := map[]], act := s.act[c := AfterClose(rest, true)])
  }

  // ----- Ownership -----

  function Stored(s: Names, c: Owner): set<Pxy> {
    Owned(s, c).Values
  }

  /** The registrations in the proxy manager that belong to `c`. */
  function ManagerShare(s: Names, c: Owner): set<Pxy>
    requires c in s.act
  {
    Stored(s, c) + match s.act[c]
                   case Storing(p) => {p}
                   case Releasing(p, rest, _) => {p} + rest
                   case Deleting(p, rest, _) => {p} + rest
                   case Sweeping(rest) => rest
                   case _ => {}
  }

  /** The entries in the NAT-hole table that belong to `c`. */
  function HoleShare(s: Names, c: Owner): set<Pxy>
    requires c in s.act
  {
    Stored(s, c) + match s.act[c]
                   case Adding(p) => {p}
                   case RollingBack(p) => {p}
                   case Storing(p) => {p}
                   case Releasing(p, rest, _) => {p} + rest
                   case Deleting(_, rest, _) => rest
                   case Sweeping(rest) => rest
                   case _ => {}
  }

  function ManagerShares(s: Names): map<Owner, set<Pxy>> {
    map c | c in s.act :: ManagerShare(s, c)
  }

  function HoleShares(s: Names): map<Owner, set<Pxy>> {
    map c | c in s.act :: HoleShare(s, c)
  }

  /** `table` holds exactly the shares of the controls, each under its own name and owner. */
  ghost predicate Exact(table: map<string, Pxy>, shares: map<Owner, set<Pxy>>) {
    && (forall n :: n in table ==>
          table[n].name == n && table[n].owner in shares && table[n] in shares[table[n].owner])
    && (forall c, p :: c in shares && p in shares[c] ==>
          p.owner == c && p.name in table && table[p.name] == p)
  }

  ghost predicate OwnerOk(s: Names, c: Owner)
    requires c in s.act
  {
    && c in s.proxies
    && (forall n :: n in s.proxies[c] ==> s.proxies[c][n].name == n)
    && match s.act[c]
       case Checking(p) => p.owner == c
       case Claiming(p) => p.owner == c
       case Adding(p) => p.owner == c && p !in Stored(s, c)
       case RollingBack(p) => p.owner == c && p !in Stored(s, c)
       case Storing(p) => p.owner == c && p.name !in s.proxies[c]
       case Releasing(p, rest, sweep) =>
         p !in rest && p !in Stored(s, c) && (if sweep then s.proxies[c] == map[] else rest == {})
       case Deleting(p, rest, sweep) =>
         p !in rest && p !in Stored(s, c) && (if sweep then s.proxies[c] == map[] else rest == {})
       case Sweeping(rest) => s.proxies[c] == map[] && rest != {}
       case Swept => s.proxies[c] == map[]
       case Idle => true
  }

  ghost predicate Inv(s: Names) {
    && (forall c :: c in s.act ==> OwnerOk(s, c))
    && Exact(s.pxys, ManagerShares(s))
    && Exact(s.clientCfgs, HoleShares(s))
  }

  lemma ExactAdd(table: map<string, Pxy>, shares: map<Owner, set<Pxy>>, p: Pxy)
    requires Exact(table, shares) && p.owner in shares && p.name !in table
    ensures Exact(table[p.name := p], shares[p.owner := shares[p.owner] + {p}])
    ensures p !in shares[p.owner]
  {
  }

  lemma ExactRemove(table: map<string, Pxy>, shares: map<Owner, set<Pxy>>, c: Owner, p: Pxy)
    requires Exact(table, shares) && c in shares && p in shares[c]
    ensures Exact(table - {p.name}, shares[c := shares[c] - {p}])
  {
    var next := shares[c := shares[c] - {p}];
    forall d, q: Pxy | d in next && q in next[d]
      ensures q.owner == d && q.name in table - {p.name} && (table - {p.name})[q.name] == q
    {
      assert q in shares[d];
      assert table[q.name] == q && table[p.name] == p;
    }
  }

  /** How a move of `c` changes `c`'s two shares: by at most one proxy, and only with the table. */
  lemma MoveShares(s: Names, c: Owner, m: Move)
    requires Enabled(s, c, m) && OwnerOk(s, c)
    ensures var s' := Next(s, c, m);
            && s'.act.Keys == s.act.Keys
            && ManagerShare(s', c) ==
               (if !m.Advance? then ManagerShare(s, c)
                else if s.act[c].Adding? && s.act[c].p.name !in s.pxys then ManagerShare(s, c) + {s.act[c].p}
                else if s.act[c].Deleting? then ManagerShare(s, c) - {s.act[c].p}
                else ManagerShare(s, c))
  {
    if m.Advance? {
      if s.act[c].Storing? { StoreAddsOne(s, c); }
    } else {
      OtherMoveShares(s, c, m);
      hide ManagerShare, OwnerOk;
    }
  }

  lemma MoveHoleShares(s: Names, c: Owner, m: Move)
    requires Enabled(s, c, m) && OwnerOk(s, c)
    ensures var s' := Next(s, c, m);
            HoleShare(s', c) ==
            (if !m.Advance? then HoleShare(s, c)
             else if s.act[c].Claiming? && s.act[c].p.name !in s.clientCfgs then HoleShare(s, c) + {s.act[c].p}
             else if s.act[c].Releasing? || s.act[c].RollingBack? then HoleShare(s, c) - {s.act[c].p}
             else HoleShare(s, c))
  {
    if m.Advance? {
      if s.act[c].Storing? { StoreAddsOne(s, c); }
    } else {
      OtherMoveShares(s, c, m);
      hide HoleShare, OwnerOk;
    }
  }

  /** A move that touches no table keeps both shares. */
  lemma OtherMoveShares(s: Names, c: Owner, m: Move)
    requires Enabled(s, c, m) && OwnerOk(s, c) && !m.Advance?
    ensures ManagerShare(Next(s, c, m), c) == ManagerShare(s, c) && HoleShare(Next(s, c, m), c) == HoleShare(s, c)
  {
    if m.Close? && m.name in s.proxies[c] { CloseTakesOne(s, c, m.name); }
  }

  lemma CloseTakesOne(s: Names, c: Owner, name: string)
    requires Enabled(s, c, Close(name)) && OwnerOk(s, c) && name in s.proxies[c]
    ensures var p := s.proxies[c][name];
            Stored(Next(s, c, Close(name)), c) == Stored(s, c) - {p} && p in Stored(s, c)
  {
    var held := s.proxies[c];
    forall q | q in held.Values && q != held[name] ensures q in (held - {name}).Values {
      var n :| n in held && held[n] == q;
      assert n in held - {name} && (held - {name})[n] == q;
    }
    forall q | q in (held - {name}).Values ensures q in held.Values && q != held[name] {
      var n :| n in held - {name} && (held - {name})[n] == q;
      assert held[n].name == n;
    }
  }

  lemma StoreAddsOne(s: Names, c: Owner)
    requires Enabled(s, c, Advance) && OwnerOk(s, c) && s.act[c].Storing?
    ensures Stored(Next(s, c, Advance), c) == Stored(s, c) + {s.act[c].p}
  {
    var held, p := s.proxies[c], s.act[c].p;
    var after := held[p.name := p];
    forall q | q in held.Values ensures q in after.Values {
      var n :| n in held && held[n] == q;
      assert n in after && after[n] == q;
    }
    assert after[p.name] == p;
  }

  /** `s'` differs from `s` only in what belongs to `c` and in the two tables. */
  ghost predicate OnlyOwner(s: Names, s': Names, c: Owner) {
    && c in s.act && c in s.proxies && c in s'.act && c in s'.proxies
    && s'.act == s.act[c := s'.act[c]]
    && s'.proxies == s.proxies[c := s'.proxies[c]]
  }

  lemma MoveIsLocal(s: Names, c: Owner, m: Move)
    requires Enabled(s, c, m)
    ensures OnlyOwner(s, Next(s, c, m), c)
  {
    hide AfterClose;
    assert s.act[c := s.act[c]] == s.act && s.proxies[c := s.proxies[c]] == s.proxies;
  }

  lemma LocalShares(s: Names, s': Names, c: Owner)
    requires OnlyOwner(s, s', c)
    ensures ManagerShares(s') == ManagerShares(s)[c := ManagerShare(s', c)]
    ensures HoleShares(s') == HoleShares(s)[c := HoleShare(s', c)]
  {
    hide ManagerShare, HoleShare;
    forall d | d in s.act && d != c
      ensures ManagerShare(s', d) == ManagerShare(s, d) && HoleShare(s', d) == HoleShare(s, d)
    {
      LocalShare(s, s', c, d);
    }
  }

  lemma LocalShare(s: Names, s': Names, c: Owner, d: Owner)
    requires OnlyOwner(s, s', c) && d in s.act && d != c
    ensures ManagerShare(s', d) == ManagerShare(s, d) && HoleShare(s', d) == HoleShare(s, d)
  {
    assert s'.act[d] == s.act[d] && Owned(s', d) == Owned(s, d);
  }

  lemma LocalOwner(s: Names, s': Names, c: Owner, d: Owner)
    requires OnlyOwner(s, s', c) && d in s.act && d != c && OwnerOk(s, d)
    ensures d in s'.act && OwnerOk(s', d)
  {
    assert s'.act[d] == s.act[d] && s'.proxies[d] == s.proxies[d];
  }

  /** Assembles the invariant from what changes for `c` alone. */
  lemma LocalInv(s: Names, s': Names, c: Owner)
    requires (forall d :: d in s.act ==> OwnerOk(s, d)) && OnlyOwner(s, s', c) && OwnerOk(s', c)
    requires Exact(s'.pxys, ManagerShares(s)[c := ManagerShare(s', c)])
    requires Exact(s'.clientCfgs, HoleShares(s)[c := HoleShare(s', c)])
    ensures Inv(s')
  {
    hide OwnerOk, Exact, ManagerShare, HoleShare;
    LocalShares(s, s', c);
    forall d | d in s'.act && d != c ensures OwnerOk(s', d) {
      LocalOwner(s, s', c, d);
    }
  }

  lemma MoveKeepsManager(s: Names, c: Owner, m: Move)
    requires Enabled(s, c, m) && OwnerOk(s, c) && Exact(s.pxys, ManagerShares(s))
    ensures Exact(Next(s, c, m).pxys, ManagerShares(s)[c := ManagerShare(Next(s, c, m), c)])
  {
    MoveShares(s, c, m);
    hide Exact, ManagerShare, Owned;
    var shares := ManagerShares(s);
    assert shares[c := shares[c]] == shares;
    if m.Advance? && s.act[c].Adding? && s.act[c].p.name !in s.pxys {
      ExactAdd(s.pxys, shares, s.act[c].p);
    } else if m.Advance? && s.act[c].Deleting? {
      DeletesItsOwn(s, c);
      ExactRemove(s.pxys, shares, c, s.act[c].p);
    }
  }

  lemma DeletesItsOwn(s: Names, c: Owner)
    requires c in s.act
    ensures s.act[c].Deleting? ==> s.act[c].p in ManagerShare(s, c)
    ensures s.act[c].Releasing? || s.act[c].RollingBack? ==> s.act[c].p in HoleShare(s, c)
  {
  }

  lemma MoveKeepsHoles(s: Names, c: Owner, m: Move)
    requires Enabled(s, c, m) && OwnerOk(s, c) && Exact(s.clientCfgs, HoleShares(s))
    ensures Exact(Next(s, c, m).clientCfgs, HoleShares(s)[c := HoleShare(Next(s, c, m), c)])
  {
    MoveHoleShares(s, c, m);
    hide Exact, HoleShare, Owned;
    var shares := HoleShares(s);
    assert shares[c := shares[c]] == shares;
    if m.Advance? && s.act[c].Claiming? && s.act[c].p.name !in s.clientCfgs {
      ExactAdd(s.clientCfgs, shares, s.act[c].p);
    } else if m.Advance? && (s.act[c].Releasing? || s.act[c].RollingBack?) {
      DeletesItsOwn(s, c);
      ExactRemove(s.clientCfgs, shares, c, s.act[c].p);
    }
  }

  lemma FreeNameIsNotStored(s: Names, c: Owner, p: Pxy)
    requires c in s.act && OwnerOk(s, c)
    requires Exact(s.pxys, ManagerShares(s)) && Exact(s.clientCfgs, HoleShares(s))
    ensures p.name !in s.clientCfgs ==> p !in Stored(s, c)
    ensures p.name !in s.pxys ==> p.name !in s.proxies[c]
  {
    if p in Stored(s, c) { assert p in HoleShares(s)[c]; }
    if p.name in s.proxies[c] { assert s.proxies[c][p.name] in ManagerShares(s)[c]; }
  }

  lemma MoveKeepsOwner(s: Names, c: Owner, m: Move)
    requires Enabled(s, c, m) && OwnerOk(s, c)
    requires s.act[c].Claiming? && s.act[c].p.name !in s.clientCfgs ==> s.act[c].p !in Stored(s, c)
    requires s.act[c].Adding? && s.act[c].p.name !in s.pxys ==> s.act[c].p.name !in s.proxies[c]
    ensures OwnerOk(Next(s, c, m), c)
  {
    if m.Close? && m.name in s.proxies[c] { CloseTakesOne(s, c, m.name); }
  }

  /** Every lock section of every control keeps the ownership invariant. */
  lemma MoveKeepsInv(s: Names, c: Owner, m: Move)
    requires Inv(s) && Enabled(s, c, m)
    ensures Inv(Next(s, c, m))
  {
    hide OwnerOk, Exact, ManagerShare, HoleShare, Next;
    MoveKeepsManager(s, c, m);
    MoveKeepsHoles(s, c, m);
    if s.act[c].Claiming? || s.act[c].Adding? { FreeNameIsNotStored(s, c, s.act[c].p); }
    MoveKeepsOwner(s, c, m);
    MoveIsLocal(s, c, m);
    LocalInv(s, Next(s, c, m), c);
  }

  /** Whatever name a section of `c` takes out of either table was `c`'s own
      registration there, and no section replaces a registration that is present. */
  lemma RemovesOnlyItsOwn(s: Names, c: Owner, m: Move, n: string)
    requires Inv(s) && Enabled(s, c, m)
    ensures n in s.pxys && n !in Next(s, c, m).pxys ==> s.pxys[n].owner == c
    ensures n in s.clientCfgs && n !in Next(s, c, m).clientCfgs ==> s.clientCfgs[n].owner == c
    ensures n in s.pxys && n in Next(s, c, m).pxys ==> Next(s, c, m).pxys[n] == s.pxys[n]
    ensures n in s.clientCfgs && n in Next(s, c, m).clientCfgs ==> Next(s, c, m).clientCfgs[n] == s.clientCfgs[n]
  {
    hide OwnerOk, ManagerShare, HoleShare, Exact;
    DeletesItsOwn(s, c);
    if m.Advance? && s.act[c].Deleting? {
      ShareIsOwn(s.pxys, ManagerShares(s), c, s.act[c].p);
    } else if m.Advance? && (s.act[c].Releasing? || s.act[c].RollingBack?) {
      ShareIsOwn(s.clientCfgs, HoleShares(s), c, s.act[c].p);
    }
  }

  lemma ShareIsOwn(table: map<string, Pxy>, shares: map<Owner, set<Pxy>>, c: Owner, p: Pxy)
    requires Exact(table, shares) && c in shares && p in shares[c]
    ensures p.owner == c && p.name in table && table[p.name] == p
  {
  }

  lemma NewOwnerIsLocal(s: Names, c: Owner, d: Owner)
    requires c !in s.act && d in s.act && OwnerOk(s, d)
    ensures var s' := NewOwner(s, c);
            ManagerShare(s', d) == ManagerShare(s, d) && HoleShare(s', d) == HoleShare(s, d) && OwnerOk(s', d)
  {
    var s' := NewOwner(s, c);
    assert s'.act[d] == s.act[d] && Owned(s', d) == Owned(s, d);
  }

  lemma NewOwnerStartsEmpty(s: Names, c: Owner)
    ensures var s' := NewOwner(s, c);
            ManagerShare(s', c) == {} && HoleShare(s', c) == {} && OwnerOk(s', c)
  {
    var none: map<string, Pxy> := map[];
    assert none.Values == {};
  }

  lemma ExactWithEmpty(table: map<string, Pxy>, shares: map<Owner, set<Pxy>>, c: Owner)
    requires Exact(table, shares) && c !in shares
    ensures Exact(table, shares[c := {}])
  {
  }

  lemma NewOwnerKeepsInv(s: Names, c: Owner)
    requires Inv(s) && c !in s.act
    ensures Inv(NewOwner(s, c))
  {
    hide OwnerOk, ManagerShare, HoleShare, Exact;
    var s' := NewOwner(s, c);
    NewOwnerStartsEmpty(s, c);
    forall d | d in s.act
      ensures ManagerShare(s', d) == ManagerShare(s, d) && HoleShare(s', d) == HoleShare(s, d) && OwnerOk(s', d)
    {
      NewOwnerIsLocal(s, c, d);
    }
    assert ManagerShares(s') == ManagerShares(s)[c := {}];
    assert HoleShares(s') == HoleShares(s)[c := {}];
    ExactWithEmpty(s.pxys, ManagerShares(s), c);
    ExactWithEmpty(s.clientCfgs, HoleShares(s), c);
  }

  lemma SweepKeepsShares(s: Names, c: Owner)
    requires c in s.act && c in s.proxies && s.act[c].Idle?
    ensures var s' := StartSweep(s, c);
            && OnlyOwner(s, s', c) && OwnerOk(s', c)
            && ManagerShare(s', c) == ManagerShare(s, c) && HoleShare(s', c) == HoleShare(s, c)
  {
    var none: map<string, Pxy> := map[];
    assert none.Values == {};
  }

  lemma StartSweepKeepsInv(s: Names, c: Owner)
    requires Inv(s) && c in s.act && s.act[c].Idle?
    ensures Inv(StartSweep(s, c))
  {
    assert OwnerOk(s, c);
    SweepKeepsShares(s, c);
    hide OwnerOk, Exact, ManagerShare, HoleShare;
    assert ManagerShares(s)[c := ManagerShares(s)[c]] == ManagerShares(s);
    assert HoleShares(s)[c := HoleShares(s)[c]] == HoleShares(s);
    LocalInv(s, StartSweep(s, c), c);
  }

  /** A control whose worker has swept owns no name in either table. */
  lemma SweptOwnsNothing(s: Names, c: Owner, n: string)
    requires Inv(s) && c in s.act && s.act[c].Swept?
    ensures n in s.pxys ==> s.pxys[n].owner != c
    ensures n in s.clientCfgs ==> s.clientCfgs[n].owner != c
  {
    assert OwnerOk(s, c);
    assert ManagerShares(s)[c] == {} && HoleShares(s)[c] == {};
  }
}

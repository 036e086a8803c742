/** The hole-punching behaviours of each mode and who plays which part
    (pkg/nathole/analysis.go). */
module Behaviors {
  import opened NatFeatures

  /** NoRole is the zero value. */
  datatype Role = NoRole | Sender | Receiver

  datatype Behavior = Behavior(role: Role, ttl: nat, sendDelayMs: nat, portsRangeNumber: nat,
                               portsRandomNumber: nat, listenRandomPorts: nat)

  /** The behaviour of the client and of the visitor. */
  datatype Pair = Pair(client: Behavior, visitor: Behavior)

  const NO_BEHAVIOR := Behavior(NoRole, 0, 0, 0, 0, 0)

  function Send(delay: nat, range: nat, random: nat): Behavior {
    Behavior(Sender, 0, delay, range, random, 0)
  }

  function Receive(ttl: nat, range: nat, listen: nat): Behavior {
    Behavior(Receiver, ttl, 0, range, 0, listen)
  }

  const MODE0 := [
    Pair(Send(0, 0, 0), Receive(7, 0, 0)), Pair(Receive(7, 0, 0), Send(0, 0, 0)),
    Pair(Send(0, 0, 0), Receive(4, 0, 0)), Pair(Receive(4, 0, 0), Send(0, 0, 0)),
    Pair(Send(0, 0, 0), Receive(0, 0, 0)), Pair(Receive(0, 0, 0), Send(0, 0, 0)),
    Pair(Send(5000, 0, 0), Receive(0, 0, 0)), Pair(Send(10000, 0, 0), Receive(0, 0, 0)),
    Pair(Receive(0, 0, 0), Send(5000, 0, 0)), Pair(Receive(0, 0, 0), Send(10000, 0, 0))]

  const MODE1 := [
    Pair(Send(0, 0, 0), Receive(7, 10, 0)), Pair(Send(2000, 0, 0), Receive(7, 10, 0)),
    Pair(Send(0, 0, 0), Receive(4, 10, 0)), Pair(Send(2000, 0, 0), Receive(4, 10, 0)),
    Pair(Send(0, 0, 0), Receive(0, 10, 0)), Pair(Send(2000, 0, 0), Receive(0, 10, 0))]

  const MODE2 := [
    Pair(Send(3000, 0, 1000), Receive(7, 0, 256)), Pair(Send(3000, 0, 1000), Receive(4, 0, 256)),
    Pair(Send(3000, 0, 1000), Receive(0, 0, 256))]

  const MODE3 := [
    Pair(Send(0, 10, 0), Receive(7, 10, 0)), Pair(Send(0, 10, 0), Receive(4, 10, 0)),
    Pair(Send(0, 10, 0), Receive(0, 10, 0)), Pair(Receive(7, 10, 0), Send(0, 10, 0)),
    Pair(Receive(4, 10, 0), Send(0, 10, 0)), Pair(Receive(0, 10, 0), Send(0, 10, 0))]

  const MODE4 := [
    Pair(Send(3000, 0, 1000), Receive(7, 2, 256)), Pair(Send(3000, 0, 1000), Receive(4, 2, 256)),
    Pair(Send(3000, 0, 1000), Receive(0, 2, 256))]

  /** getBehaviorByMode */
  function Rows(mode: nat): seq<Pair> {
    if mode == 1 then MODE1
    else if mode == 2 then MODE2
    else if mode == 3 then MODE3
    else if mode == 4 then MODE4
    else MODE0
  }

  /** getBehaviorByModeAndIndex */
  function Row(mode: nat, index: nat): Pair {
    if index >= |Rows(mode)| then Pair(NO_BEHAVIOR, NO_BEHAVIOR) else Rows(mode)[index]
  }

  predicate Swapped(mode: nat, c: NatFeature) {
    || (mode == 1 && c.natType.EasyNAT?)
    || (mode == 2 && c.natType.HardNAT?)
    || (mode == 4 && !c.regularPortsChange)
  }

  /** The pair GetRecommandBehaviors returns for a mode and index. */
  function Assigned(mode: nat, index: nat, c: NatFeature): Pair {
    var row := Row(mode, index);
    if Swapped(mode, c) then Pair(row.visitor, row.client) else row
  }

  predicate Opposite(p: Pair) {
    || (p.client.role.Sender? && p.visitor.role.Receiver?)
    || (p.client.role.Receiver? && p.visitor.role.Sender?)
  }

  /** Every row has one sender and one receiver; only the sender delays or sprays random
      ports, and only the receiver limits the TTL or listens on random ports. */
  predicate WellFormed(p: Pair) {
    Opposite(p) && PartOk(p.client) && PartOk(p.visitor)
  }

  predicate PartOk(b: Behavior) {
    if b.role.Sender? then b.ttl == 0 && b.listenRandomPorts == 0
    else b.sendDelayMs == 0 && b.portsRandomNumber == 0
  }

  lemma RowsAreWellFormed(mode: nat, index: nat)
    requires index < |Rows(mode)|
    ensures WellFormed(Row(mode, index))
    ensures mode == 1 || mode == 2 || mode == 4 ==> Row(mode, index).client.role == Sender
  {
    if mode == 1 {
      assert MODE1[index] in MODE1;
    } else if mode == 2 {
      assert MODE2[index] in MODE2;
    } else if mode == 3 {
      assert MODE3[index] in MODE3;
    } else if mode == 4 {
      assert MODE4[index] in MODE4;
    } else {
      assert MODE0[index] in MODE0;
    }
  }

  /** The client's part by mode and NAT. */
  predicate Placed(mode: nat, row: Pair, c: NatFeature, p: Pair) {
    && (p == row || p == Pair(row.visitor, row.client))
    && match mode
       case 1 => p.client.role.Sender? <==> c.natType.HardNAT?
       case 2 => p.client.role.Receiver? <==> c.natType.HardNAT?
       case 4 => p.client.role.Sender? <==> c.regularPortsChange
       case _ => p == row
  }

  /** The peers get the opposite parts of a row: a hard client sends in mode 1 and receives in
      mode 2, a regular one sends in mode 4, an easy or irregular one the other way round; the
      other modes take the row as it is listed. */
  lemma RolesAreAssigned(mode: nat, index: nat, c: NatFeature)
    requires index < |Rows(mode)|
    ensures WellFormed(Assigned(mode, index, c)) && Placed(mode, Rows(mode)[index], c, Assigned(mode, index, c))
  {
    RowsAreWellFormed(mode, index);
    hide Rows;
  }
}

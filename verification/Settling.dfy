/** What admission is for: defaulting settles, so an update that leaves the spec alone passes the immutability check; a
    field of a shared card is written at most once over any sequence of labs; every router connector is attached. */
module Settling {
  import opened Wrappers
  import opened Text
  import opened Names
  import opened Chassis
  import opened DefaultPort
  import opened Cluster
  import opened LabSpec
  import opened NodePasses
  import opened Defaulting
  import opened Admission
  import Mac

  // ---- the links settle ----

  lemma PortedConnector(nodes: Nodes, mid: map<string, seq<Connector>>, links': map<string, seq<Connector>>, l: string, i: nat)
    requires PortsFilled(nodes, mid, links', {}) && l in mid && i < |mid[l]|
    ensures l in links' && |links'[l]| == |mid[l]| && PortFilled(nodes, mid[l][i], links'[l][i])
  {
    assert LinkPortsFilled(nodes, mid[l], links'[l], |mid[l]|);
  }

  /** What becomes of one connector: its node stays, it gets an address, and a router's connector gets a port. */
  lemma DefaultedConnector(nodes: Nodes, links: map<string, seq<Connector>>, links': map<string, seq<Connector>>, starts: map<string, nat>,
                           l: string, i: nat)
    requires LinksDefaulted(nodes, links, links', starts) && l in links && i < |links[l]|
    ensures l in links' && |links'[l]| == |links[l]| && links'[l][i].node == links[l][i].node
    ensures links'[l][i].mac == SetDefault(links[l][i].mac, Some(Mac.Derived(Mac.Base, starts[l] + i + 1)))
    ensures links[l][i].port.Some? ==> links'[l][i].port == links[l][i].port
    ensures !NeedsPort(links'[l][i])
    ensures NeedsPort(links[l][i]) ==> links'[l][i].port.Some? && ChassisAt(nodes, links[l][i].node).Some?
                                       && IsChoice(ChassisAt(nodes, links[l][i].node).value, links'[l][i].port.value)
  {
    var mid :| MacsFilled(links, mid, starts, {}) && PortsFilled(nodes, mid, links', {});
    FilledConnector(links, mid, starts, l, i);
    PortedConnector(nodes, mid, links', l, i);
  }

  /** The addresses Default fills in are all different, in whatever order it reaches the links, for every lab of fewer than
      2^48 connectors. */
  lemma DefaultedMacsDiffer(nodes: Nodes, links: map<string, seq<Connector>>, defaults: OneOf,
                            nodes': Nodes, links': map<string, seq<Connector>>, starts: map<string, nat>, after: map<Card, Fields>,
                            a: string, i: nat, b: string, j: nat)
    requires IsDefaulted(nodes, links, defaults, nodes', links', starts, after) && |Connectors(links)| < Mac.Two48
    requires a in links && b in links && i < |links[a]| && j < |links[b]| && (a != b || i != j)
    requires links[a][i].mac.None? && links[b][j].mac.None?
    ensures a in links' && b in links' && |links'[a]| == |links[a]| && |links'[b]| == |links[b]|
    ensures links'[a][i].mac.Some? && links'[b][j].mac.Some? && links'[a][i].mac != links'[b][j].mac
  {
    LinkMacsDiffer(PreparedNodes(nodes, links, defaults), links, links', starts, a, i, b, j);
  }

  lemma LinkMacsDiffer(nodes: Nodes, links: map<string, seq<Connector>>, links': map<string, seq<Connector>>, starts: map<string, nat>,
                       a: string, i: nat, b: string, j: nat)
    requires LinksDefaulted(nodes, links, links', starts) && |Connectors(links)| < Mac.Two48
    requires a in links && b in links && i < |links[a]| && j < |links[b]| && (a != b || i != j)
    requires links[a][i].mac.None? && links[b][j].mac.None?
    ensures a in links' && b in links' && |links'[a]| == |links[a]| && |links'[b]| == |links[b]|
    ensures links'[a][i].mac.Some? && links'[b][j].mac.Some? && links'[a][i].mac != links'[b][j].mac
  {
    var x := GivenConnectorMac(nodes, links, links', starts, a, i);
    var y := GivenConnectorMac(nodes, links, links', starts, b, j);
    OffsetsDiffer(links, starts, a, i, b, j);
    AddressesDiffer(x, y, starts[a] + i + 1, starts[b] + j + 1);
  }

  lemma AddressesDiffer(a: string, b: string, x: nat, y: nat)
    requires IsDerived(a, x) && IsDerived(b, y) && x != y && x < Mac.Two48 && y < Mac.Two48
    ensures a != b
  {
    Mac.DerivedDiffer(Mac.Base, x, y);
  }

  lemma GivenConnectorMac(nodes: Nodes, links: map<string, seq<Connector>>, links': map<string, seq<Connector>>, starts: map<string, nat>,
                          l: string, i: nat)
    returns (address: string)
    requires LinksDefaulted(nodes, links, links', starts) && l in links && i < |links[l]| && links[l][i].mac.None?
    ensures l in starts && l in links' && |links'[l]| == |links[l]|
    ensures links'[l][i].mac == Some(address) && IsDerived(address, starts[l] + i + 1)
  {
    DefaultedConnector(nodes, links, links', starts, l, i);
    address := links'[l][i].mac.value;
  }

  ghost predicate IsDerived(address: string, offset: nat) { exists n: nat :: n == offset && address == Mac.Derived(Mac.Base, n) }

  lemma OffsetsDiffer(links: map<string, seq<Connector>>, starts: map<string, nat>, a: string, i: nat, b: string, j: nat)
    requires Numbered(links, starts) && a in links && b in links && i < |links[a]| && j < |links[b]| && (a != b || i != j)
    ensures starts[a] + i + 1 != starts[b] + j + 1
    ensures starts[a] + i + 1 <= |Connectors(links)| && starts[b] + j + 1 <= |Connectors(links)|
  {
  }

  lemma SameConnectorNodes(nodes: Nodes, links: map<string, seq<Connector>>, links': map<string, seq<Connector>>, starts: map<string, nat>)
    requires LinksDefaulted(nodes, links, links', starts)
    ensures links'.Keys == links.Keys && forall l | l in links :: |links'[l]| == |links[l]|
    ensures ConnectorNodes(links') == ConnectorNodes(links)
  {
    var mid :| MacsFilled(links, mid, starts, {}) && PortsFilled(nodes, mid, links', {});
    forall l | l in links
      ensures |links'[l]| == |links[l]|
    {
      assert LinkPortsFilled(nodes, mid[l], links'[l], |mid[l]|);
    }
    forall l, i | l in links && 0 <= i < |links[l]|
      ensures links'[l][i].node == links[l][i].node
    {
      DefaultedConnector(nodes, links, links', starts, l, i);
    }
  }

  /** The links of a settled lab stay as they are. */
  lemma SettledLinks(nodes: Nodes, links: map<string, seq<Connector>>, links': map<string, seq<Connector>>, starts: map<string, nat>)
    requires LinksDefaulted(nodes, links, links', starts)
    requires forall l, i | l in links && 0 <= i < |links[l]| :: links[l][i].mac.Some? && !NeedsPort(links[l][i])
    ensures links' == links
  {
    SameConnectorNodes(nodes, links, links', starts);
    var mid :| MacsFilled(links, mid, starts, {}) && PortsFilled(nodes, mid, links', {});
    forall l | l in links
      ensures links'[l] == links[l]
    {
      forall i | 0 <= i < |links[l]|
        ensures links'[l][i] == links[l][i]
      {
        FilledConnector(links, mid, starts, l, i);
        PortedConnector(nodes, mid, links', l, i);
      }
    }
  }

  // ---- defaulting settles ----

  /** What a successful Default leaves is settled. */
  lemma DefaultSettles(nodes: Nodes, links: map<string, seq<Connector>>, defaults: OneOf,
                       nodes': Nodes, links': map<string, seq<Connector>>, starts: map<string, nat>, after: map<Card, Fields>)
    requires VerdictOf(nodes, links, defaults) == Ok
    requires IsDefaulted(nodes, links, defaults, nodes', links', starts, after)
    ensures Settled(nodes', links', defaults) && NodesFilled(nodes', {}, after)
  {
    var prepared := PreparedNodes(nodes, links, defaults);
    SameConnectorNodes(prepared, links, links', starts);
    forall l, i | l in links' && 0 <= i < |links'[l]|
      ensures links'[l][i].mac.Some? && !NeedsPort(links'[l][i])
    {
      DefaultedConnector(prepared, links, links', starts, l, i);
    }
    DefaultedIsSettled(nodes, links, links', defaults);
  }

  /** A card that is filled for every slot it is in is not written. */
  lemma FilledCardStays(nodes: Nodes, c: Card, m: map<Card, Fields>, after: Fields)
    requires NodesFilled(nodes, {}, m) && c in m && LabJustified(nodes, c, m[c], after)
    ensures after == m[c]
  {
    forall n, slot | Holds(nodes, n) && In(RouterChassis(nodes[n]), slot, c)
      ensures IsFilled(m[c], RouterChassis(nodes[n]).nodeType.value, slot, c.mdas)
    {
      assert NodeFilled(nodes[n], m);
    }
  }

  /** Default changes neither the spec nor any card of a lab that is settled and filled. */
  lemma SettledUnchanged(nodes: Nodes, links: map<string, seq<Connector>>, defaults: OneOf, m: map<Card, Fields>,
                         nodes': Nodes, links': map<string, seq<Connector>>, starts: map<string, nat>, after: map<Card, Fields>)
    requires Settled(nodes, links, defaults) && NodesFilled(nodes, {}, m)
    requires IsDefaulted(nodes, links, defaults, nodes', links', starts, after)
    requires AllLabJustified(PreparedNodes(nodes, links, defaults), m, after)
    ensures nodes' == nodes && links' == links && after == m
  {
    SettledIsFixed(nodes, links, defaults);
    SettledPrepared(nodes, links, defaults);
    SettledLinks(nodes, links, links', starts);
    forall c | c in m
      ensures after[c] == m[c]
    {
      FilledCardStays(nodes, c, m, after[c]);
    }
  }

  /** Default is idempotent, whatever orders the maps yield in either run. */
  method DefaultTwice(lab: LabObject, defaults: OneOf, ghost cards: set<Card>)
    returns (first: Verdict, second: Verdict, ghost nodes: Nodes, ghost links: map<string, seq<Connector>>, ghost m: map<Card, Fields>)
    requires Within(lab.nodes, cards) && OneWithin(defaults, cards)
    modifies lab, cards
    ensures first.Ok? ==> second.Ok? && lab.nodes == nodes && lab.links == links && Snapshot(cards) == m
  {
    ghost var nodes0, links0, starts := lab.nodes, lab.links, map[];
    first, starts, m := Default(lab, defaults, cards);
    nodes, links := lab.nodes, lab.links;
    second := first;
    if first.Ok? {
      DefaultSettles(nodes0, links0, defaults, nodes, links, starts, m);
      DefaultedWithin(nodes0, links0, defaults, cards);
      ghost var after;
      second, starts, after := Default(lab, defaults, cards);
      SettledIsFixed(nodes, links, defaults);
      SettledUnchanged(nodes, links, defaults, m, lab.nodes, lab.links, starts, after);
    }
  }

  lemma TypesWithin(nodes: Nodes, cards: set<Card>)
    requires Within(nodes, cards)
    ensures Within(WithTypes(nodes), cards)
  {
    forall n | n in nodes
      ensures OneWithin(WithType(nodes[n]), cards)
    {
      assert OneWithin(nodes[n], cards);
    }
  }

  lemma MacWithin(name: string, one: OneOf, index: nat, cards: set<Card>)
    requires OneWithin(one, cards)
    ensures OneWithin(WithMac(name, one, index), cards)
  {
  }

  lemma MacsWithin(nodes: Nodes, cards: set<Card>)
    requires Within(nodes, cards)
    ensures Within(WithMacs(nodes), cards)
  {
    forall n | n in nodes
      ensures OneWithin(WithMacs(nodes)[n], cards)
    {
      MacWithin(n, nodes[n], IndexIn(Sorted(nodes.Keys), n), cards);
    }
  }

  lemma DefaultedWithin(nodes: Nodes, links: map<string, seq<Connector>>, defaults: OneOf, cards: set<Card>)
    requires Within(nodes, cards) && OneWithin(defaults, cards)
    ensures Within(DefaultedNodes(nodes, links, defaults), cards)
  {
    PreparedWithin(nodes, links, defaults, cards);
    PassesPrepare(nodes, links, defaults);
    TypesWithin(LoadedNodes(TypedNodes(NodeClosure(nodes, links)), defaults), cards);
    MacsWithin(PreparedNodes(nodes, links, defaults), cards);
  }

  // ---- equal specs ----

  /** reflect.DeepEqual on cards. */
  predicate SameCard(a: Card, b: Card, m: map<Card, Fields>)
    requires a in m && b in m
  {
    a.model == b.model && a.mdas == b.mdas && a.xioms == b.xioms && m[a] == m[b]
  }

  predicate SameChassis(a: Chassis, b: Chassis, m: map<Card, Fields>) {
    && a.nodeType == b.nodeType && a.model == b.model && a.sfm == b.sfm && a.mac == b.mac
    && (a.cards.Some? <==> b.cards.Some?) && Slots(a).Keys == Slots(b).Keys
    && forall s | s in Slots(a) :: Slots(a)[s] in m && Slots(b)[s] in m && SameCard(Slots(a)[s], Slots(b)[s], m)
  }

  predicate SameSystem(a: System, b: System, m: map<Card, Fields>) {
    && a.leaves == b.leaves && (a.chassis.Some? <==> b.chassis.Some?)
    && (a.chassis.Some? ==> SameChassis(a.chassis.value, b.chassis.value, m))
  }

  predicate SameOne(a: OneOf, b: OneOf, m: map<Card, Fields>) {
    a.Keys == b.Keys && forall k | k in a :: SameSystem(a[k], b[k], m)
  }

  /** reflect.DeepEqual on two specs whose card objects have the fields m. */
  predicate SameSpec(nodes: Nodes, links: map<string, seq<Connector>>, nodes': Nodes, links': map<string, seq<Connector>>,
                     m: map<Card, Fields>) {
    nodes.Keys == nodes'.Keys && links == links' && forall n | n in nodes :: SameOne(nodes[n], nodes'[n], m)
  }

  lemma SameFillPanics(a: Chassis, b: Chassis, m: map<Card, Fields>)
    requires SameChassis(a, b, m)
    ensures Valid(a) == Valid(b) && FillPanics(a) == FillPanics(b)
  {
    forall s | s in Slots(a)
      ensures Slots(a)[s].Acceptable() == Slots(b)[s].Acceptable()
    {
      assert SameCard(Slots(a)[s], Slots(b)[s], m);
    }
    if Valid(a) {
      forall s | s in Slots(a)
        ensures Slots(a)[s].Derails(a.nodeType.value, s) == Slots(b)[s].Derails(b.nodeType.value, s)
      {
        assert SameCard(Slots(a)[s], Slots(b)[s], m);
      }
    }
  }

  lemma SameNodeSettled(name: string, a: OneOf, b: OneOf, defaults: OneOf, m: map<Card, Fields>)
    requires SameOne(a, b, m) && NodeSettled(name, a, defaults)
    ensures NodeSettled(name, b, defaults)
  {
    FirstOfSame(Kinds, a, b);
    var k := GetSystem(a).value;
    assert SameSystem(a[k], b[k], m);
    SameLoaded(a, b, k, defaults, m);
    if IsSRType(k) {
      var x, y := a[k].chassis.value, b[k].chassis.value;
      assert WithType(a)[k].chassis.value.nodeType == Some(k);
      assert y.(nodeType := Some(k)) == y && x.(nodeType := Some(k)) == x;
      assert b[k := b[k].(chassis := Some(y))] == b;
      SameFillPanics(x, y, m);
      if NodeTypeOf(name) == k {
        assert WithMac(name, a, 0)[k].chassis.value.mac.Some?;
      }
    }
  }

  lemma SameLoaded(a: OneOf, b: OneOf, k: string, defaults: OneOf, m: map<Card, Fields>)
    requires SameOne(a, b, m) && k in a && GetSystem(a) == Some(k) && GetSystem(b) == Some(k) && Loaded(a, defaults) == a
    ensures Loaded(b, defaults) == b
  {
    if k in defaults {
      var dst, dst', src := a[k], b[k], defaults[k];
      assert FillSystem(dst, src) == dst;
      assert SameSystem(dst, dst', m);
      assert src.leaves + dst'.leaves == dst'.leaves;
      if src.chassis.Some? {
        assert FillChassis(dst.chassis.value, src.chassis.value) == dst.chassis.value;
        assert FillChassis(dst'.chassis.value, src.chassis.value) == dst'.chassis.value;
      }
      assert FillSystem(dst', src) == dst';
    }
  }

  lemma SameFilled(a: OneOf, b: OneOf, m: map<Card, Fields>)
    requires SameOne(a, b, m) && NodeFilled(a, m)
    ensures NodeFilled(b, m)
  {
    FirstOfSame(Kinds, a, b);
    if IsRouter(b) {
      var k := GetSystem(a).value;
      assert SameSystem(a[k], b[k], m);
      var x, y := RouterChassis(a), RouterChassis(b);
      SameFillPanics(x, y, m);
      forall s | s in Slots(y)
        ensures Slots(y)[s] in m
        ensures Valid(y) ==> IsFilled(m[Slots(y)[s]], y.nodeType.value, s, Slots(y)[s].mdas)
      {
        assert SameCard(Slots(x)[s], Slots(y)[s], m);
      }
    }
  }

  /** A copy of a settled and filled lab, as it comes in an update request, is settled and filled. */
  lemma CopyIsSettled(nodes: Nodes, nodes': Nodes, links: map<string, seq<Connector>>, defaults: OneOf, m: map<Card, Fields>)
    requires Settled(nodes, links, defaults) && NodesFilled(nodes, {}, m) && SameSpec(nodes, links, nodes', links, m)
    ensures Settled(nodes', links, defaults) && NodesFilled(nodes', {}, m)
  {
    forall n | n in nodes'
      ensures NodeSettled(n, nodes'[n], defaults) && NodeFilled(nodes'[n], m)
    {
      assert SameOne(nodes[n], nodes'[n], m) && NodeSettled(n, nodes[n], defaults) && NodeFilled(nodes[n], m);
      SameNodeSettled(n, nodes[n], nodes'[n], defaults, m);
      SameFilled(nodes[n], nodes'[n], m);
    }
  }
}

/** What a successful Default leaves in each field, said of the lab and the configuration that went in. */
module Defaulted {
  import opened Wrappers
  import opened Text
  import opened Names
  import opened Chassis
  import opened DefaultPort
  import opened Cluster
  import opened LabSpec
  import opened NodePasses
  import opened Admission
  import opened Settling
  import Mac

  // ---- which system a node has ----

  predicate IsKind(k: string) { k in {"vsim", "vsri", "magc", "vm", "srl", "pod", "srsim"} }

  /** The system kinds given for a node. */
  function KindsGiven(one: OneOf): set<string> { set k | k in one && IsKind(k) }

  function Given(nodes: Nodes, n: string): OneOf { if n in nodes then nodes[n] else map[] }

  lemma KindsAre(k: string)
    ensures k in Kinds <==> IsKind(k)
  {
  }

  lemma HasSystemIff(one: OneOf)
    ensures GetSystem(one).Some? <==> KindsGiven(one) != {}
    ensures forall k | KindsGiven(one) == {k} :: GetSystem(one) == Some(k)
  {
    if k :| k in KindsGiven(one) {
      KindsAre(k);
      FirstOfFinds(Kinds, one, k);
    }
    if GetSystem(one).Some? {
      KindsAre(GetSystem(one).value);
      assert GetSystem(one).value in KindsGiven(one);
    }
  }

  lemma PreparedKeys(name: string, one: OneOf, config: OneOf, index: nat)
    requires !Untyped(name, one)
    ensures var r := WithMac(name, Prepared(name, one, config), index);
            r.Keys == if GetSystem(one).Some? then one.Keys else one.Keys + {NodeTypeOf(name)}
  {
  }

  /** A node that had systems keeps exactly those. One that had none gets exactly one, of the type its name tells. */
  lemma NodeKinds(name: string, one: OneOf, config: OneOf, index: nat)
    requires !Untyped(name, one)
    ensures var r := WithMac(name, Prepared(name, one, config), index);
            if KindsGiven(one) != {} then r.Keys == one.Keys
            else KindsGiven(r) == {NodeTypeOf(name)} && GetSystem(r) == Some(NodeTypeOf(name))
  {
    HasSystemIff(one);
    PreparedKeys(name, one, config, index);
    var r := WithMac(name, Prepared(name, one, config), index);
    if KindsGiven(one) == {} {
      KindsAre(NodeTypeOf(name));
      assert KindsGiven(r) == {NodeTypeOf(name)};
      HasSystemIff(r);
    }
  }

  lemma ClosedNode(nodes: Nodes, links: map<string, seq<Connector>>, n: string)
    requires n in NodeClosure(nodes, links)
    ensures NodeClosure(nodes, links)[n] == Given(nodes, n)
  {
  }

  lemma DefaultedNode(nodes: Nodes, links: map<string, seq<Connector>>, config: OneOf, n: string)
    requires n in DefaultedNodes(nodes, links, config)
    ensures n in NodeClosure(nodes, links) && NodeClosure(nodes, links)[n] == Given(nodes, n)
    ensures DefaultedNodes(nodes, links, config)[n] == WithMac(n, Prepared(n, Given(nodes, n), config), PlaceOf(nodes, links, n))
  {
    AddressedNode(PreparedNodes(nodes, links, config), n);
    PreparedNode(nodes, links, config, n);
    ClosedNode(nodes, links, n);
  }

  /** The place of a node in the sorted list of the nodes after Default. */
  ghost function PlaceOf(nodes: Nodes, links: map<string, seq<Connector>>, n: string): nat {
    IndexIn(Sorted(NodeClosure(nodes, links).Keys), n)
  }

  /** When Default succeeds, a node keeps the systems it had; one that had none has exactly one, of the type that stands before
      the first dash of its name. */
  lemma DefaultedKinds(nodes: Nodes, links: map<string, seq<Connector>>, config: OneOf, nodes': Nodes,
                       links': map<string, seq<Connector>>, starts: map<string, nat>, after: map<Card, Fields>, n: string)
    requires IsDefaulted(nodes, links, config, nodes', links', starts, after) && VerdictOf(nodes, links, config) == Ok && n in nodes'
    ensures if KindsGiven(Given(nodes, n)) != {} then nodes'[n].Keys == nodes[n].Keys
            else KindsGiven(nodes'[n]) == {NodeTypeOf(n)} && GetSystem(nodes'[n]) == Some(NodeTypeOf(n))
  {
    DefaultedNode(nodes, links, config, n);
    assert !Untyped(n, NodeClosure(nodes, links)[n]);
    NodeKinds(n, Given(nodes, n), config, PlaceOf(nodes, links, n));
  }

  lemma ConnectorNodeThere(nodes: Nodes, links: map<string, seq<Connector>>, config: OneOf, n: string)
    requires n in ConnectorNodes(links)
    ensures n in DefaultedNodes(nodes, links, config)
  {
  }

  /** For instance, a connector's node "vm-1" that the user does not list becomes a vm, and nothing else. */
  lemma UnlistedNode(nodes: Nodes, links: map<string, seq<Connector>>, config: OneOf, nodes': Nodes,
                     links': map<string, seq<Connector>>, starts: map<string, nat>, after: map<Card, Fields>, t: string, rest: string)
    requires IsDefaulted(nodes, links, config, nodes', links', starts, after) && VerdictOf(nodes, links, config) == Ok
    requires t + "-" + rest in ConnectorNodes(links) && t + "-" + rest !in nodes && t != "" && '-' !in t
    ensures t + "-" + rest in nodes' && KindsGiven(nodes'[t + "-" + rest]) == {t}
  {
    var n := t + "-" + rest;
    ConnectorNodeThere(nodes, links, config, n);
    DefaultedKinds(nodes, links, config, nodes', links', starts, after, n);
    TypeIsBeforeDash(t, rest);
  }

  // ---- what is in it ----

  function SystemGiven(one: OneOf, k: string): System { if k in one then one[k] else System(None, map[]) }

  function ChassisGiven(sys: System): Chassis { if sys.chassis.Some? then sys.chassis.value else Chassis(None, None, None, None, None) }

  /** r has what was given, and where nothing was given what the configuration has. */
  predicate Either<T(==)>(given: Option<T>, default: Option<T>, r: Option<T>) {
    if given.Some? then r == given else r == default
  }

  ghost predicate LeavesMerged(given: map<string, string>, default: map<string, string>, r: map<string, string>) {
    forall x :: Either(Leaf(given, x), Leaf(default, x), Leaf(r, x))
  }

  function Leaf(leaves: map<string, string>, x: string): Option<string> { if x in leaves then Some(leaves[x]) else None }

  /** The chassis address: given, configured, or derived for a router from its place in the sorted node list. */
  predicate MacMerged(given: Option<string>, default: Option<string>, r: Option<string>, router: bool, index: nat) {
    Either(given, if default.None? && router then Some(Mac.Derived(Mac.ChassisBase, index)) else default, r)
  }

  predicate ChassisMerged(g: Chassis, d: Chassis, c: Chassis, k: string, name: string, index: nat) {
    && Either(g.model, d.model, c.model) && Either(g.cards, d.cards, c.cards) && Either(g.sfm, d.sfm, c.sfm)
    && (IsSRType(k) ==> c.nodeType == Some(k))
    && MacMerged(g.mac, d.mac, c.mac, IsSRType(k) && k == NodeTypeOf(name), index)
  }

  /** Field by field: what the user gave stays, what the user left out is what the configuration has, the chassis type is the
      kind's, and a router without an address gets one. */
  ghost predicate SystemMerged(given: System, default: System, r: System, k: string, name: string, index: nat) {
    && LeavesMerged(given.leaves, default.leaves, r.leaves)
    && (r.chassis.Some? <==> given.chassis.Some? || default.chassis.Some?)
    && (r.chassis.Some? ==> ChassisMerged(ChassisGiven(given), ChassisGiven(default), r.chassis.value, k, name, index))
  }

  lemma FilledIsMerged(given: System, default: System)
    ensures var r := FillSystem(given, default);
            && LeavesMerged(given.leaves, default.leaves, r.leaves)
            && (r.chassis.Some? <==> given.chassis.Some? || default.chassis.Some?)
            && (r.chassis.Some? ==>
                  var g, d, c := ChassisGiven(given), ChassisGiven(default), r.chassis.value;
                  && Either(g.model, d.model, c.model) && Either(g.cards, d.cards, c.cards) && Either(g.sfm, d.sfm, c.sfm)
                  && Either(g.mac, d.mac, c.mac))
  {
  }

  lemma LoadedIsMerged(one: OneOf, config: OneOf, k: string)
    requires GetSystem(one) == Some(k)
    ensures k in Loaded(one, config) && Loaded(one, config)[k] == FillSystem(one[k], SystemGiven(config, k))
  {
    if k !in config {
      assert one[k].leaves == map[] + one[k].leaves;
    }
  }

  /** b is a but for the chassis type and address. */
  predicate SameButTypeAndMac(a: System, b: System) {
    && b.leaves == a.leaves && (b.chassis.Some? <==> a.chassis.Some?)
    && (b.chassis.Some? ==>
          b.chassis.value.model == a.chassis.value.model && b.chassis.value.cards == a.chassis.value.cards
          && b.chassis.value.sfm == a.chassis.value.sfm)
  }

  lemma TypedSystem(one: OneOf, k: string)
    requires GetSystem(one) == Some(k)
    ensures var r := WithType(one);
            && GetSystem(r) == Some(k) && SameButTypeAndMac(one[k], r[k])
            && (r[k].chassis.Some? ==> r[k].chassis.value.mac == one[k].chassis.value.mac
                                       && (IsSRType(k) ==> r[k].chassis.value.nodeType == Some(k)))
  {
    FirstOfSame(Kinds, one, WithType(one));
  }

  lemma AddressedSystem(name: string, one: OneOf, k: string, index: nat)
    requires GetSystem(one) == Some(k)
    ensures var r := WithMac(name, one, index);
            && GetSystem(r) == Some(k) && SameButTypeAndMac(one[k], r[k])
            && (r[k].chassis.Some? ==>
                  && r[k].chassis.value.nodeType == one[k].chassis.value.nodeType
                  && MacMerged(one[k].chassis.value.mac, None, r[k].chassis.value.mac, IsSRType(k) && k == NodeTypeOf(name), index))
  {
    FirstOfSame(Kinds, one, WithMac(name, one, index));
  }

  lemma NodeMerged(name: string, one: OneOf, config: OneOf, index: nat)
    requires !Untyped(name, one)
    ensures var r := WithMac(name, Prepared(name, one, config), index);
            && GetSystem(r).Some?
            && var k := GetSystem(r).value; SystemMerged(SystemGiven(one, k), SystemGiven(config, k), r[k], k, name, index)
  {
    var typed := Typed(name, one);
    TypedHasSystem(name, one);
    var k := GetSystem(typed).value;
    LoadedSettles(typed, config);
    var loaded := Loaded(typed, config);
    LoadedIsMerged(typed, config, k);
    FilledIsMerged(typed[k], SystemGiven(config, k));
    TypedSystem(loaded, k);
    AddressedSystem(name, WithType(loaded), k, index);
    if GetSystem(one).None? {
      GivenNothing(name, one, k);
    }
  }

  lemma GivenNothing(name: string, one: OneOf, k: string)
    requires GetSystem(one).None? && !Untyped(name, one) && GetSystem(Typed(name, one)) == Some(k)
    ensures k !in one && Typed(name, one)[k] == System(None, map[])
  {
    if k in one {
      FirstOfFinds(Kinds, one, k);
    }
  }

  /** What a successful Default leaves in every node, field by field. */
  lemma DefaultedFields(nodes: Nodes, links: map<string, seq<Connector>>, config: OneOf, nodes': Nodes,
                        links': map<string, seq<Connector>>, starts: map<string, nat>, after: map<Card, Fields>, n: string)
    requires IsDefaulted(nodes, links, config, nodes', links', starts, after) && VerdictOf(nodes, links, config) == Ok && n in nodes'
    ensures GetSystem(nodes'[n]).Some?
    ensures var k := GetSystem(nodes'[n]).value;
            SystemMerged(SystemGiven(Given(nodes, n), k), SystemGiven(config, k), nodes'[n][k], k, n, PlaceOf(nodes, links, n))
  {
    DefaultedNode(nodes, links, config, n);
    assert !Untyped(n, NodeClosure(nodes, links)[n]);
    NodeMerged(n, Given(nodes, n), config, PlaceOf(nodes, links, n));
  }

  // ---- addresses ----

  /** Nobody has given the chassis of this node an address. */
  ghost predicate Unaddressed(nodes: Nodes, config: OneOf, n: string) {
    && ChassisGiven(SystemGiven(Given(nodes, n), NodeTypeOf(n))).mac.None?
    && ChassisGiven(SystemGiven(config, NodeTypeOf(n))).mac.None?
  }

  lemma PlaceInRange(nodes: Nodes, links: map<string, seq<Connector>>, n: string)
    requires n in NodeClosure(nodes, links)
    ensures PlaceOf(nodes, links, n) < |NodeClosure(nodes, links).Keys|
  {
    assert n in Elems(Sorted(NodeClosure(nodes, links).Keys));
  }

  lemma ChassisAddress(nodes: Nodes, links: map<string, seq<Connector>>, config: OneOf, nodes': Nodes,
                       links': map<string, seq<Connector>>, starts: map<string, nat>, after: map<Card, Fields>, n: string)
    requires IsDefaulted(nodes, links, config, nodes', links', starts, after) && VerdictOf(nodes, links, config) == Ok && n in nodes'
    requires IsSRType(NodeTypeOf(n)) && GetSystem(nodes'[n]) == Some(NodeTypeOf(n)) && nodes'[n][NodeTypeOf(n)].chassis.Some?
    requires Unaddressed(nodes, config, n)
    ensures nodes'[n][NodeTypeOf(n)].chassis.value.mac == Some(Mac.Derived(Mac.ChassisBase, PlaceOf(nodes, links, n)))
  {
    DefaultedFields(nodes, links, config, nodes', links', starts, after, n);
  }

  /** The addresses Default fills in for connectors and for chassis never meet, in a lab of up to 2^43 of each. */
  lemma AddressesApart(nodes: Nodes, links: map<string, seq<Connector>>, config: OneOf, nodes': Nodes,
                       links': map<string, seq<Connector>>, starts: map<string, nat>, after: map<Card, Fields>,
                       n: string, l: string, i: nat)
    requires IsDefaulted(nodes, links, config, nodes', links', starts, after) && VerdictOf(nodes, links, config) == Ok && n in nodes'
    requires IsSRType(NodeTypeOf(n)) && GetSystem(nodes'[n]) == Some(NodeTypeOf(n)) && nodes'[n][NodeTypeOf(n)].chassis.Some?
    requires Unaddressed(nodes, config, n) && l in links && i < |links[l]| && links[l][i].mac.None?
    requires |Connectors(links)| < 0x800_0000_0000 && |NodeClosure(nodes, links).Keys| < 0x800_0000_0000
    ensures l in links' && |links'[l]| == |links[l]|
    ensures nodes'[n][NodeTypeOf(n)].chassis.value.mac.Some? && links'[l][i].mac.Some?
    ensures nodes'[n][NodeTypeOf(n)].chassis.value.mac != links'[l][i].mac
  {
    ChassisAddress(nodes, links, config, nodes', links', starts, after, n);
    DefaultedNode(nodes, links, config, n);
    PlaceInRange(nodes, links, n);
    var address := GivenConnectorMac(PreparedNodes(nodes, links, config), links, links', starts, l, i);
    OffsetInRange(links, starts, l, i);
    ApartAddresses(address, starts[l] + i + 1, PlaceOf(nodes, links, n));
  }

  lemma OffsetInRange(links: map<string, seq<Connector>>, starts: map<string, nat>, l: string, i: nat)
    requires Numbered(links, starts) && l in links && i < |links[l]|
    ensures starts[l] + i + 1 <= |Connectors(links)|
  {
  }

  lemma ApartAddresses(address: string, offset: nat, place: nat)
    requires IsDerived(address, offset) && offset < 0x800_0000_0000 && place < 0x800_0000_0000
    ensures Mac.Derived(Mac.ChassisBase, place) != address
  {
    Mac.RangesApart(offset, place);
  }

  lemma OneLinkStart(links: map<string, seq<Connector>>, starts: map<string, nat>, l: string)
    requires Numbered(links, starts) && links.Keys == {l}
    ensures starts[l] == 0
  {
    CountConnectorsOf(l, |links[l]|);
    assert Connectors(links) == ConnectorsOf(l, |links[l]|);
  }

  /** In a lab of one link the connectors are numbered from 1: the first address is 12:20:22:00:00:01. */
  lemma OneLinkAddresses(nodes: Nodes, links: map<string, seq<Connector>>, links': map<string, seq<Connector>>,
                         starts: map<string, nat>, l: string, i: nat)
    requires LinksDefaulted(nodes, links, links', starts) && links.Keys == {l} && i < |links[l]| && links[l][i].mac.None?
    ensures l in links' && |links'[l]| == |links[l]| && links'[l][i].mac.Some? && IsDerived(links'[l][i].mac.value, i + 1)
  {
    var address := GivenConnectorMac(nodes, links, links', starts, l, i);
    OneLinkStart(links, starts, l);
    SameOffset(address, starts[l] + i + 1, i + 1);
  }

  lemma SameOffset(address: string, a: nat, b: nat)
    requires IsDerived(address, a) && a == b
    ensures IsDerived(address, b)
  {
  }

  // ---- when it succeeds ----

  /** The default chassis for a kind of router can be used for every node of the kind: the model and the cards are there, line
      cards have numbers as keys where the model has any, and the line cards of a MAG-c have a model and MDAs. */
  predicate GoodChassis(ch: Chassis, kind: string) {
    && ch.model.Some? && ch.cards.Some?
    && forall slot | slot in ch.cards.value && slot !in {"A", "a", "B", "b"} ::
         && (!IsIntegrated(ch.model.value) ==> SlotNumber(slot).Some?)
         && (kind == "magc" ==> ch.cards.value[slot].model.Some? && ch.cards.value[slot].mdas.Some?)
  }

  predicate GoodConfig(config: OneOf) {
    forall k | k in {"vsim", "vsri", "magc", "srsim"} :: k in config && config[k].chassis.Some? && GoodChassis(config[k].chassis.value, k)
  }

  /** The user's nodes say nothing, and every name tells a kind. */
  ghost predicate PlainNodes(nodes: Nodes, links: map<string, seq<Connector>>) {
    forall n | n in NodeClosure(nodes, links) :: NodeClosure(nodes, links)[n] == map[] && IsKind(NodeTypeOf(n))
  }

  lemma PlainTyped(name: string)
    requires IsKind(NodeTypeOf(name))
    ensures !Untyped(name, map[]) && Typed(name, map[]) == map[NodeTypeOf(name) := NewSystem]
    ensures GetSystem(Typed(name, map[])) == Some(NodeTypeOf(name))
  {
    KindsAre(NodeTypeOf(name));
    var one: OneOf := map[];
    HasSystemIff(one);
    HasSystemIff(Typed(name, one));
    assert KindsGiven(Typed(name, one)) == {NodeTypeOf(name)};
  }

  lemma PlainPrepared(name: string, config: OneOf)
    requires IsKind(NodeTypeOf(name)) && GoodConfig(config)
    ensures var t, r := NodeTypeOf(name), Prepared(name, map[], config);
            && GetSystem(r) == Some(t)
            && (IsSRType(t) ==> r[t].chassis == Some(Filled(config[t].chassis.value, t)))
  {
    var t, typed := NodeTypeOf(name), Typed(name, map[]);
    PlainTyped(name);
    LoadedSettles(typed, config);
    LoadedIsMerged(typed, config, t);
    TypedSystem(Loaded(typed, config), t);
    RouterKinds(t);
  }

  /** What a node without chassis settings gets. */
  function Filled(ch: Chassis, kind: string): Chassis { FillChassis(NoChassis, ch).(nodeType := Some(kind)) }

  lemma GoodIsReadable(ch: Chassis, kind: string)
    requires GoodChassis(ch, kind) && IsSRType(kind)
    ensures !FillPanics(Filled(ch, kind)) && !PortPanics(Filled(ch, kind))
  {
    var c := Filled(ch, kind);
    forall slot | slot in Slots(c)
      ensures !Slots(c)[slot].Derails(kind, slot) && (!IsIntegrated(ch.model.value) ==> !Unreadable(c, slot))
    {
      CpmSlots(slot);
    }
  }

  /** A plain node is prepared without a panic, and its connectors get a port. */
  lemma PlainNodeFine(name: string, config: OneOf)
    requires IsKind(NodeTypeOf(name)) && GoodConfig(config)
    ensures var r := Prepared(name, map[], config); !Untyped(name, map[]) && !NodePanics(r) && !MacPanics(name, r)
    ensures var t, r := NodeTypeOf(name), Prepared(name, map[], config);
            IsSRVM(t) ==> GetSystem(r) == Some(t) && r[t].chassis.Some? && !PortPanics(r[t].chassis.value)
  {
    var t, r := NodeTypeOf(name), Prepared(name, map[], config);
    PlainTyped(name);
    PlainPrepared(name, config);
    if IsSRType(t) {
      RouterKinds(t);
      GoodIsReadable(config[t].chassis.value, t);
      assert r[t].chassis.value.(nodeType := Some(t)) == r[t].chassis.value;
    }
  }

  lemma PlainClosedNode(nodes: Nodes, links: map<string, seq<Connector>>, config: OneOf, n: string)
    requires PlainNodes(nodes, links) && GoodConfig(config) && n in NodeClosure(nodes, links)
    ensures !Untyped(n, NodeClosure(nodes, links)[n])
    ensures var prepared := PreparedNodes(nodes, links, config);
            && n in prepared && !NodePanics(prepared[n]) && !MacPanics(n, prepared[n])
            && (IsSRVM(NodeTypeOf(n)) ==> ChassisAt(prepared, n).Some? && !PortPanics(ChassisAt(prepared, n).value))
  {
    PreparedNode(nodes, links, config, n);
    PlainNodeFine(n, config);
  }

  /** Default succeeds for every lab that leaves its nodes to the defaults, when every name tells a kind and the configuration's
      default chassis are good. */
  lemma PlainLabSucceeds(nodes: Nodes, links: map<string, seq<Connector>>, config: OneOf)
    requires PlainNodes(nodes, links) && GoodConfig(config)
    ensures VerdictOf(nodes, links, config) == Ok
  {
    NothingUntyped(nodes, links);
    NothingPanics(nodes, links, config);
  }

  lemma NothingUntyped(nodes: Nodes, links: map<string, seq<Connector>>)
    requires PlainNodes(nodes, links)
    ensures !SomeUntyped(NodeClosure(nodes, links))
  {
    var closed := NodeClosure(nodes, links);
    forall n | n in closed
      ensures !Untyped(n, closed[n])
    {
      PlainTyped(n);
    }
  }

  lemma NothingPanics(nodes: Nodes, links: map<string, seq<Connector>>, config: OneOf)
    requires PlainNodes(nodes, links) && GoodConfig(config)
    ensures var prepared := PreparedNodes(nodes, links, config);
            !SomeNodePanics(prepared) && !SomeConnectorPanics(prepared, links) && !SomeMacPanics(prepared)
  {
    var prepared := PreparedNodes(nodes, links, config);
    PreparedNode(nodes, links, config, "");
    forall n | n in prepared
      ensures !NodePanics(prepared[n]) && !MacPanics(n, prepared[n])
      ensures IsSRVM(NodeTypeOf(n)) ==> ChassisAt(prepared, n).Some? && !PortPanics(ChassisAt(prepared, n).value)
    {
      PlainClosedNode(nodes, links, config, n);
    }
    ConnectorsFine(nodes, links, prepared);
  }

  /** Default fails with an error exactly when some node has no system and a name that tells no kind. */
  lemma DefaultErrsIff(nodes: Nodes, links: map<string, seq<Connector>>, config: OneOf)
    ensures VerdictOf(nodes, links, config) == Err <==>
            exists n :: n in NodeClosure(nodes, links) && KindsGiven(Given(nodes, n)) == {} && !IsKind(NodeTypeOf(n))
  {
    var closed := NodeClosure(nodes, links);
    forall n | n in closed
      ensures Untyped(n, closed[n]) <==> KindsGiven(Given(nodes, n)) == {} && !IsKind(NodeTypeOf(n))
    {
      ClosedNode(nodes, links, n);
      HasSystemIff(closed[n]);
      KindsAre(NodeTypeOf(n));
    }
  }

  lemma ConnectorsFine(nodes: Nodes, links: map<string, seq<Connector>>, prepared: Nodes)
    requires forall n | n in NodeClosure(nodes, links) && IsSRVM(NodeTypeOf(n)) ::
               ChassisAt(prepared, n).Some? && !PortPanics(ChassisAt(prepared, n).value)
    ensures !SomeConnectorPanics(prepared, links)
  {
    forall l, i | l in links && 0 <= i < |links[l]|
      ensures !ConnectorPanics(prepared, links[l][i])
    {
      assert links[l][i].node in ConnectorNodes(links);
      assert links[l][i].node in NodeClosure(nodes, links);
    }
  }
}

/** What the admission webhook makes of a lab's nodes, as functions: the node closure, the choice of a system
    type, the merge with the configuration, the derived chassis fields; and when it fails or panics. */
module LabSpec {
  import opened Wrappers
  import opened Text
  import opened Names
  import opened Chassis
  import opened DefaultPort
  import opened Cluster
  import Mac

  const VM := "vm"
  const SRL := "srl"
  const POD := "pod"

  /** The fields of OneOfSystem, in declaration order. */
  const Kinds := [VSIM, VSRI, MAGC, VM, SRL, POD, SRSIM]

  /** A node's system. `leaves` are its other pointer and map fields that are set, by name. */
  datatype System = System(chassis: Option<Chassis>, leaves: map<string, string>)

  const NewSystem := System(None, map[])

  /** OneOfSystem: the systems that are set, by kind. */
  type OneOf = map<string, System>

  type Nodes = map<string, OneOf>

  function FirstOf(kinds: seq<string>, one: OneOf): (k: Option<string>)
    ensures k.Some? ==> k.value in kinds && k.value in one
  {
    if kinds == [] then None else if kinds[0] in one then Some(kinds[0]) else FirstOf(kinds[1..], one)
  }

  /** OneOfSystem.GetSystem: the first kind that is set. */
  function GetSystem(one: OneOf): (k: Option<string>)
    ensures k.Some? ==> k.value in Kinds && k.value in one
  {
    FirstOf(Kinds, one)
  }

  // ---- which nodes there are ----

  ghost function ConnectorNodes(links: map<string, seq<Connector>>): set<string> {
    set l, i | l in links && 0 <= i < |links[l]| :: links[l][i].node
  }

  ghost function CpmNames(names: set<string>): set<string> {
    set n | n in names && CpmName(n).Some? :: CpmName(n).value
  }

  ghost predicate Closed(names: set<string>, links: map<string, seq<Connector>>) {
    ConnectorNodes(links) <= names && CpmNames(names) <= names
  }

  /** The missing names get an empty node. */
  function AddMissing(nodes: Nodes, names: set<string>): (r: Nodes)
    ensures r.Keys == nodes.Keys + names
    ensures forall n | n in r :: r[n] == if n in nodes then nodes[n] else map[]
  {
    nodes + map n | n in names - nodes.Keys :: map[]
  }

  ghost function NodeClosure(nodes: Nodes, links: map<string, seq<Connector>>): Nodes {
    var some := AddMissing(nodes, ConnectorNodes(links));
    AddMissing(some, CpmNames(some.Keys))
  }

  /** A control card's node is its own, so one round of adding control cards is enough. */
  lemma CpmNamesClosed(names: set<string>)
    ensures CpmNames(names + CpmNames(names)) == CpmNames(names)
  {
    forall n | n in CpmNames(names)
      ensures CpmName(n) == Some(n)
    {
      var m :| m in names && CpmName(m) == Some(n);
      CpmNameIsFixed(m);
    }
  }

  /** The nodes after defaulting are the least set that holds the user's nodes, every connector's node and, for each
      of its distributed routers, the control card. The user's nodes are kept as they are. */
  lemma NodeClosureIsLeast(nodes: Nodes, links: map<string, seq<Connector>>)
    ensures var r := NodeClosure(nodes, links);
            && nodes.Keys <= r.Keys && Closed(r.Keys, links)
            && (forall names | nodes.Keys <= names && Closed(names, links) :: r.Keys <= names)
            && (forall n | n in nodes :: r[n] == nodes[n])
  {
    CpmNamesClosed(nodes.Keys + ConnectorNodes(links));
  }

  // ---- what becomes of one node ----

  predicate Untyped(name: string, one: OneOf) { GetSystem(one).None? && NodeTypeOf(name) !in Kinds }

  /** A node without a system gets an empty one of the type its name tells. */
  function Typed(name: string, one: OneOf): OneOf {
    if GetSystem(one).None? && NodeTypeOf(name) in Kinds then one[NodeTypeOf(name) := NewSystem] else one
  }

  function FillChassis(dst: Chassis, src: Chassis): Chassis {
    Chassis(SetDefault(dst.nodeType, src.nodeType), SetDefault(dst.model, src.model), SetDefault(dst.cards, src.cards),
            SetDefault(dst.sfm, src.sfm), SetDefault(dst.mac, src.mac))
  }

  /** FillNilPointers on a system. */
  function FillSystem(dst: System, src: System): System {
    System(
      if src.chassis.None? then dst.chassis
      else Some(FillChassis(if dst.chassis.Some? then dst.chassis.value else NoChassis, src.chassis.value)),
      src.leaves + dst.leaves)
  }

  /** LoadDef for one node: the configuration's default for its kind is merged in. */
  function Loaded(one: OneOf, config: OneOf): OneOf {
    match GetSystem(one)
    case Some(k) => if k in config then one[k := FillSystem(one[k], config[k])] else one
    case None => one
  }

  /** FillDefaultVal of the node's system dereferences a nil pointer. */
  predicate NodePanics(one: OneOf) {
    match GetSystem(one)
    case Some(k) =>
      IsSRType(k) && (one[k].chassis.None? || (IsSRVM(k) && FillPanics(one[k].chassis.value.(nodeType := Some(k)))))
    case None => false
  }

  /** FillDefaultVal sets the type of the chassis. */
  function WithType(one: OneOf): OneOf {
    match GetSystem(one)
    case Some(k) =>
      if IsSRType(k) && one[k].chassis.Some?
      then one[k := one[k].(chassis := Some(one[k].chassis.value.(nodeType := Some(k))))] else one
    case None => one
  }

  /** The node's system is not of the type its name tells: the type assertion panics. */
  predicate MacPanics(name: string, one: OneOf) {
    IsSRType(NodeTypeOf(name)) && GetSystem(one) != Some(NodeTypeOf(name))
  }

  /** The chassis MAC of the router at position `index` of the sorted node list. */
  function WithMac(name: string, one: OneOf, index: nat): OneOf {
    var k := NodeTypeOf(name);
    if IsSRType(k) && k in one && one[k].chassis.Some? && one[k].chassis.value.mac.None?
    then one[k := one[k].(chassis := Some(one[k].chassis.value.(mac := Some(Mac.Derived(Mac.ChassisBase, index)))))]
    else one
  }

  function IndexIn(names: seq<string>, name: string): (i: nat)
    ensures name in names ==> i < |names| && names[i] == name
  {
    if names == [] || names[0] == name then 0 else 1 + IndexIn(names[1..], name)
  }

  function Prepared(name: string, one: OneOf, config: OneOf): OneOf { WithType(Loaded(Typed(name, one), config)) }

  /** The nodes before chassis addresses are given. */
  ghost function PreparedNodes(nodes: Nodes, links: map<string, seq<Connector>>, config: OneOf): Nodes {
    var closed := NodeClosure(nodes, links);
    map n | n in closed :: Prepared(n, closed[n], config)
  }

  ghost function WithMacs(nodes: Nodes): Nodes {
    map n | n in nodes :: WithMac(n, nodes[n], IndexIn(Sorted(nodes.Keys), n))
  }

  /** The nodes after defaulting. */
  ghost function DefaultedNodes(nodes: Nodes, links: map<string, seq<Connector>>, config: OneOf): Nodes {
    WithMacs(PreparedNodes(nodes, links, config))
  }

  // ---- ports ----

  predicate NeedsPort(c: Connector) { IsSRVM(NodeTypeOf(c.node)) && c.port.None? }

  function ChassisAt(nodes: Nodes, name: string): Option<Chassis> {
    if name in nodes && GetSystem(nodes[name]) == Some(NodeTypeOf(name)) then nodes[name][NodeTypeOf(name)].chassis else None
  }

  /** Filling the port panics: wrong system type, or no readable chassis. */
  predicate ConnectorPanics(nodes: Nodes, c: Connector) {
    NeedsPort(c) && (ChassisAt(nodes, c.node).None? || PortPanics(ChassisAt(nodes, c.node).value))
  }

  ghost predicate PortFilled(nodes: Nodes, c: Connector, c': Connector) {
    && c' == c.(port := c'.port)
    && if NeedsPort(c) then ChassisAt(nodes, c.node).Some? && c'.port.Some? && IsChoice(ChassisAt(nodes, c.node).value, c'.port.value)
       else c'.port == c.port
  }

  // ---- the outcome ----

  datatype Verdict = Ok | Err | Panicked

  ghost predicate SomeUntyped(nodes: Nodes) { exists n :: n in nodes && Untyped(n, nodes[n]) }

  ghost predicate SomeNodePanics(nodes: Nodes) { exists n :: n in nodes && NodePanics(nodes[n]) }

  ghost predicate SomeConnectorPanics(nodes: Nodes, links: map<string, seq<Connector>>) {
    exists l, i :: l in links && 0 <= i < |links[l]| && ConnectorPanics(nodes, links[l][i])
  }

  ghost predicate SomeMacPanics(nodes: Nodes) { exists n :: n in nodes && MacPanics(n, nodes[n]) }

  /** Whether defaulting succeeds, whatever orders the maps yield. */
  ghost function VerdictOf(nodes: Nodes, links: map<string, seq<Connector>>, config: OneOf): Verdict {
    var prepared := PreparedNodes(nodes, links, config);
    if SomeUntyped(NodeClosure(nodes, links)) then Err
    else if SomeNodePanics(prepared) || SomeConnectorPanics(prepared, links) || SomeMacPanics(prepared) then Panicked
    else Ok
  }

  // ---- defaulting settles ----

  /** Nothing is left for defaulting to add to the lab, apart from its cards. */
  ghost predicate Settled(nodes: Nodes, links: map<string, seq<Connector>>, config: OneOf) {
    && Closed(nodes.Keys, links)
    && (forall n | n in nodes :: NodeSettled(n, nodes[n], config))
    && (forall l, i | l in links && 0 <= i < |links[l]| :: links[l][i].mac.Some? && !NeedsPort(links[l][i]))
  }

  predicate NodeSettled(name: string, one: OneOf, config: OneOf) {
    && GetSystem(one).Some? && Loaded(one, config) == one
    && WithType(one) == one && !NodePanics(one)
    && !MacPanics(name, one) && WithMac(name, one, 0) == one
  }

  lemma FirstOfSame(kinds: seq<string>, a: OneOf, b: OneOf)
    requires a.Keys == b.Keys
    ensures FirstOf(kinds, a) == FirstOf(kinds, b)
  {
  }

  lemma LoadedSettles(one: OneOf, config: OneOf)
    requires GetSystem(one).Some?
    ensures GetSystem(Loaded(one, config)) == GetSystem(one) && Loaded(Loaded(one, config), config) == Loaded(one, config)
  {
    FirstOfSame(Kinds, one, Loaded(one, config));
    var k := GetSystem(one).value;
    if k in config {
      var dst, src := one[k], config[k];
      assert src.leaves + (src.leaves + dst.leaves) == src.leaves + dst.leaves;
    }
  }

  lemma WithTypeSettles(one: OneOf, config: OneOf)
    requires GetSystem(one).Some? && Loaded(one, config) == one
    ensures GetSystem(WithType(one)) == GetSystem(one)
    ensures Loaded(WithType(one), config) == WithType(one) && WithType(WithType(one)) == WithType(one)
  {
    FirstOfSame(Kinds, one, WithType(one));
    var k := GetSystem(one).value;
    if k in config {
      assert one[k] == FillSystem(one[k], config[k]);
      assert WithType(one)[k] == FillSystem(WithType(one)[k], config[k]);
    }
  }

  lemma WithMacSettles(name: string, one: OneOf, index: nat, config: OneOf)
    requires GetSystem(one).Some? && Loaded(one, config) == one && WithType(one) == one
    requires !MacPanics(name, one) && !NodePanics(one)
    ensures NodeSettled(name, WithMac(name, one, index), config)
  {
    var r := WithMac(name, one, index);
    FirstOfSame(Kinds, one, r);
    var k := GetSystem(one).value;
    if k in config {
      assert one[k] == FillSystem(one[k], config[k]);
      assert r[k] == FillSystem(r[k], config[k]);
    }
    if r != one {
      assert NodeTypeOf(name) == k;
      var before, after := one[k].chassis.value, r[k].chassis.value;
      assert after == before.(mac := after.mac);
      MacIsNoMatter(before.(nodeType := Some(k)), after.(nodeType := Some(k)));
      assert one[k] == one[k].(chassis := Some(before.(nodeType := Some(k))));
    }
  }

  lemma MacIsNoMatter(a: Chassis, b: Chassis)
    requires b == a.(mac := b.mac)
    ensures FillPanics(a) == FillPanics(b)
  {
    assert Slots(a) == Slots(b) && Valid(a) == Valid(b);
  }

  lemma DefaultedNodeSettled(name: string, one: OneOf, config: OneOf, index: nat)
    requires !Untyped(name, one)
    requires !NodePanics(Prepared(name, one, config)) && !MacPanics(name, Prepared(name, one, config))
    ensures NodeSettled(name, WithMac(name, Prepared(name, one, config), index), config)
  {
    var typed := Typed(name, one);
    TypedHasSystem(name, one);
    LoadedSettles(typed, config);
    WithTypeSettles(Loaded(typed, config), config);
    WithMacSettles(name, Prepared(name, one, config), index, config);
  }

  lemma NothingWrong(nodes: Nodes, links: map<string, seq<Connector>>, config: OneOf)
    requires VerdictOf(nodes, links, config) == Ok
    ensures !SomeUntyped(NodeClosure(nodes, links))
    ensures var prepared := PreparedNodes(nodes, links, config); !SomeNodePanics(prepared) && !SomeMacPanics(prepared)
  {
  }

  lemma PreparedNode(nodes: Nodes, links: map<string, seq<Connector>>, config: OneOf, n: string)
    ensures PreparedNodes(nodes, links, config).Keys == NodeClosure(nodes, links).Keys
    ensures n in NodeClosure(nodes, links) ==> PreparedNodes(nodes, links, config)[n] == Prepared(n, NodeClosure(nodes, links)[n], config)
  {
  }

  lemma AddressedNode(nodes: Nodes, n: string)
    ensures WithMacs(nodes).Keys == nodes.Keys
    ensures n in nodes ==> WithMacs(nodes)[n] == WithMac(n, nodes[n], IndexIn(Sorted(nodes.Keys), n))
  {
  }

  lemma SettledAt(nodes: Nodes, links: map<string, seq<Connector>>, config: OneOf, n: string)
    requires VerdictOf(nodes, links, config) == Ok && n in NodeClosure(nodes, links)
    ensures n in DefaultedNodes(nodes, links, config) && NodeSettled(n, DefaultedNodes(nodes, links, config)[n], config)
  {
    var closed, prepared := NodeClosure(nodes, links), PreparedNodes(nodes, links, config);
    NothingWrong(nodes, links, config);
    PreparedNode(nodes, links, config, n);
    AddressedNode(prepared, n);
    assert !Untyped(n, closed[n]) && !NodePanics(prepared[n]) && !MacPanics(n, prepared[n]);
    DefaultedNodeSettled(n, closed[n], config, IndexIn(Sorted(prepared.Keys), n));
  }

  lemma DefaultedNodesSettle(nodes: Nodes, links: map<string, seq<Connector>>, config: OneOf, r: Nodes)
    requires VerdictOf(nodes, links, config) == Ok && r == DefaultedNodes(nodes, links, config)
    ensures r.Keys == NodeClosure(nodes, links).Keys && forall n | n in r :: NodeSettled(n, r[n], config)
  {
    PreparedNode(nodes, links, config, "");
    AddressedNode(PreparedNodes(nodes, links, config), "");
    forall n | n in r
      ensures NodeSettled(n, r[n], config)
    {
      SettledAt(nodes, links, config, n);
    }
  }

  /** What defaulting returns when it succeeds is settled. */
  lemma DefaultedIsSettled(nodes: Nodes, links: map<string, seq<Connector>>, links': map<string, seq<Connector>>, config: OneOf)
    requires VerdictOf(nodes, links, config) == Ok
    requires ConnectorNodes(links') == ConnectorNodes(links)
    requires forall l, i | l in links' && 0 <= i < |links'[l]| :: links'[l][i].mac.Some? && !NeedsPort(links'[l][i])
    ensures Settled(DefaultedNodes(nodes, links, config), links', config)
  {
    NodeClosureIsLeast(nodes, links);
    DefaultedNodesSettle(nodes, links, config, DefaultedNodes(nodes, links, config));
  }

  lemma {:induction false} FirstOfFinds(kinds: seq<string>, one: OneOf, k: string)
    requires k in kinds && k in one
    ensures FirstOf(kinds, one).Some?
  {
    if kinds[0] !in one {
      FirstOfFinds(kinds[1..], one, k);
    }
  }

  lemma TypedHasSystem(name: string, one: OneOf)
    requires !Untyped(name, one)
    ensures GetSystem(Typed(name, one)).Some?
  {
    if GetSystem(one).None? {
      FirstOfFinds(Kinds, Typed(name, one), NodeTypeOf(name));
    }
  }

  lemma SettledClosure(nodes: Nodes, links: map<string, seq<Connector>>)
    requires Closed(nodes.Keys, links)
    ensures NodeClosure(nodes, links) == nodes
  {
    NodeClosureIsLeast(nodes, links);
  }

  lemma NodeFixed(name: string, one: OneOf, config: OneOf, index: nat)
    requires NodeSettled(name, one, config)
    ensures Prepared(name, one, config) == one && WithMac(name, one, index) == one
  {
  }

  ghost predicate AllPrepared(nodes: Nodes, config: OneOf) {
    forall n | n in nodes :: Prepared(n, nodes[n], config) == nodes[n]
  }

  lemma PreparedStay(nodes: Nodes, links: map<string, seq<Connector>>, config: OneOf)
    requires NodeClosure(nodes, links) == nodes && AllPrepared(nodes, config)
    ensures PreparedNodes(nodes, links, config) == nodes
  {
  }

  lemma SettledPrepared(nodes: Nodes, links: map<string, seq<Connector>>, config: OneOf)
    requires Closed(nodes.Keys, links) && forall n | n in nodes :: NodeSettled(n, nodes[n], config)
    ensures PreparedNodes(nodes, links, config) == nodes
  {
    SettledClosure(nodes, links);
    forall n | n in nodes
      ensures Prepared(n, nodes[n], config) == nodes[n]
    {
      NodeFixed(n, nodes[n], config, 0);
    }
    PreparedStay(nodes, links, config);
  }

  lemma SettledMacs(nodes: Nodes, config: OneOf)
    requires forall n | n in nodes :: NodeSettled(n, nodes[n], config)
    ensures WithMacs(nodes) == nodes
  {
    forall n | n in nodes
      ensures WithMacs(nodes)[n] == nodes[n]
    {
      NodeFixed(n, nodes[n], config, IndexIn(Sorted(nodes.Keys), n));
    }
  }

  lemma SettledVerdict(nodes: Nodes, links: map<string, seq<Connector>>, config: OneOf)
    requires Settled(nodes, links, config)
    requires NodeClosure(nodes, links) == nodes && PreparedNodes(nodes, links, config) == nodes
    ensures VerdictOf(nodes, links, config) == Ok
  {
    forall n | n in nodes
      ensures !Untyped(n, nodes[n]) && !NodePanics(nodes[n]) && !MacPanics(n, nodes[n])
    {
      assert NodeSettled(n, nodes[n], config);
    }
    assert !SomeUntyped(nodes) && !SomeNodePanics(nodes) && !SomeMacPanics(nodes);
    assert !SomeConnectorPanics(nodes, links);
  }

  /** Defaulting a settled lab succeeds and changes no node. */
  lemma SettledIsFixed(nodes: Nodes, links: map<string, seq<Connector>>, config: OneOf)
    requires Settled(nodes, links, config)
    ensures VerdictOf(nodes, links, config) == Ok && DefaultedNodes(nodes, links, config) == nodes
  {
    SettledClosure(nodes, links);
    SettledPrepared(nodes, links, config);
    SettledMacs(nodes, config);
    SettledVerdict(nodes, links, config);
  }
}

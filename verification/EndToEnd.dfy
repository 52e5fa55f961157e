/** From admission to machines: addresses are distinct, and every router connector is attached exactly once. */
module EndToEnd {
  import opened Wrappers
  import opened Text
  import opened Names
  import opened Chassis
  import opened Cluster
  import opened ClusterInvariant
  import opened ClusterSteps
  import opened Noted
  import opened Machines
  import opened Placement
  import opened Agreement
  import opened LabSpec
  import opened Validation
  import opened Defaulting
  import opened Bridges
  import opened Isolation
  import opened Sysinfo
  import W = Wiring
  import S = Spokes
  import Mac

  // ---- chassis addresses ----

  function MacAt(nodes: Nodes, name: string): Option<string> {
    if ChassisAt(nodes, name).Some? then ChassisAt(nodes, name).value.mac else None
  }

  lemma MacIsGiven(name: string, one: OneOf, index: nat)
    requires IsSRType(NodeTypeOf(name)) && GetSystem(one) == Some(NodeTypeOf(name))
    requires one[NodeTypeOf(name)].chassis.Some? && one[NodeTypeOf(name)].chassis.value.mac.None?
    ensures var r := WithMac(name, one, index);
            && GetSystem(r) == Some(NodeTypeOf(name)) && r[NodeTypeOf(name)].chassis.Some?
            && r[NodeTypeOf(name)].chassis.value.mac == Some(Mac.Derived(Mac.ChassisBase, index))
  {
    FirstOfSame(Kinds, one, WithMac(name, one, index));
  }

  lemma GivenMac(nodes: Nodes, name: string)
    requires name in nodes && IsSRType(NodeTypeOf(name)) && ChassisAt(nodes, name).Some? && MacAt(nodes, name).None?
    ensures MacAt(WithMacs(nodes), name) == Some(Mac.Derived(Mac.ChassisBase, IndexIn(Sorted(nodes.Keys), name)))
  {
    MacIsGiven(name, nodes[name], IndexIn(Sorted(nodes.Keys), name));
  }

  lemma IndexDiffers(nodes: Nodes, a: string, b: string)
    requires a in nodes && b in nodes && a != b
    ensures IndexIn(Sorted(nodes.Keys), a) < |nodes.Keys| && IndexIn(Sorted(nodes.Keys), b) < |nodes.Keys|
    ensures IndexIn(Sorted(nodes.Keys), a) != IndexIn(Sorted(nodes.Keys), b)
  {
    var names := Sorted(nodes.Keys);
    assert a in Elems(names) && b in Elems(names);
  }

  /** The chassis addresses filled in by one Default all differ. */
  lemma GivenMacsDiffer(nodes: Nodes, a: string, b: string)
    requires a in nodes && b in nodes && a != b && |nodes.Keys| < Mac.Two48
    requires IsSRType(NodeTypeOf(a)) && ChassisAt(nodes, a).Some? && MacAt(nodes, a).None?
    requires IsSRType(NodeTypeOf(b)) && ChassisAt(nodes, b).Some? && MacAt(nodes, b).None?
    ensures MacAt(WithMacs(nodes), a) != MacAt(WithMacs(nodes), b)
  {
    GivenMac(nodes, a);
    GivenMac(nodes, b);
    IndexDiffers(nodes, a, b);
    Mac.DerivedDiffer(Mac.ChassisBase, IndexIn(Sorted(nodes.Keys), a), IndexIn(Sorted(nodes.Keys), b));
  }

  // ---- attachments ----

  /** In a defaulted lab every connector of a router node has a port, so the machines can be built. */
  lemma RouterPortsSet(nodes: Nodes, links: map<string, seq<Connector>>, defaults: OneOf, node: string)
    requires Settled(nodes, links, defaults) && IsSRVM(NodeTypeOf(node))
    ensures W.PortsSet(links, node)
  {
    forall l, i: nat | l in links && i < |links[l]| && links[l][i].node == node
      ensures links[l][i].port.Some?
    {
      assert !NeedsPort(links[l][i]);
    }
  }

  /** A connector's node of a settled lab has a chassis, when its name tells a router. */
  lemma RouterHasChassis(nodes: Nodes, links: map<string, seq<Connector>>, defaults: OneOf, l: string, i: nat)
    requires Settled(nodes, links, defaults) && l in links && i < |links[l]| && IsSRVM(NodeTypeOf(links[l][i].node))
    ensures links[l][i].node in nodes && ChassisAt(nodes, links[l][i].node).Some?
    ensures IsRouter(nodes[links[l][i].node])
  {
    var node := links[l][i].node;
    assert node in ConnectorNodes(links);
    assert NodeSettled(node, nodes[node], defaults);
  }

  // ---- the lab of the cluster and the lab of admission ----

  /** What the reconcile needs of a node: its chassis model, if its system is a router. */
  function SpecOf(one: OneOf): NodeSpec {
    if IsRouter(one) && RouterChassis(one).model.Some? then Router(RouterChassis(one).model.value) else OtherNode
  }

  /** The lab in the cluster is one that was defaulted and validated. */
  ghost predicate IsAdmitted(lab: Lab, nodes: Nodes, defaults: OneOf, lib: Library) {
    && Settled(nodes, lab.links, defaults) && SpecValid(nodes, lab.links, lib)
    && lab.nodes == map n | n in nodes :: SpecOf(nodes[n])
  }

  /** The connector of a lab's link in the cluster. */
  ghost predicate IsEnd(lab: Lab, e: W.End) {
    e.link < |LinkNames(lab)| && LinkNames(lab)[e.link] in lab.links && e.connector < |lab.links[LinkNames(lab)[e.link]]|
  }

  ghost function ConnectorAt(lab: Lab, e: W.End): Connector
    requires IsEnd(lab, e)
  {
    lab.links[LinkNames(lab)[e.link]][e.connector]
  }

  /** `slots` are the cards of the node's chassis. */
  ghost predicate AreCards(nodes: Nodes, node: string, slots: seq<string>) {
    S.Distinct(slots) && (ChassisAt(nodes, node).Some? ==> Elems(slots) == Slots(ChassisAt(nodes, node).value).Keys)
  }

  /** EnsureLinks has succeeded, in whatever history. */
  ghost predicate LinksPassed(s: State) { Inv(s) && NotedApart(s) && Networking(s.pc) }

  /** So it is whenever a run from an initial cluster comes to the nodes of a lab, whatever names collide and whoever
      interferes. */
  lemma RunPassed(s: State, es: seq<Event>)
    requires Init(s) && Networking(Run(s, es).pc)
    ensures LinksPassed(Run(s, es))
  {
    InitInv(s);
    RunKeeps(s, es);
    IdleNoted(s);
    RunNoted(s, es);
  }

  lemma PassedVnis(s: State)
    requires LinksPassed(s)
    ensures |s.pc.used| == |LinkNames(s.pc.lab)| && S.Distinct(s.pc.used)
  {
    LinkNamesDistinct(s.pc.lab);
  }

  lemma BuiltHavePorts(s: State, nodes: Nodes, defaults: OneOf, node: string)
    requires LinksPassed(s) && Settled(nodes, s.pc.lab.links, defaults) && IsSRVM(NodeTypeOf(node))
    ensures |s.pc.used| == |LinkNames(s.pc.lab)| && S.Distinct(s.pc.used)
    ensures W.AreLinks(s.pc.lab.links, LinkNames(s.pc.lab)) && W.PortsSet(s.pc.lab.links, node)
    ensures var m := Built(s.pc.lab, s.pc.used); W.AllHavePorts(m, node, Sorted(W.LinksOf(m, node)))
  {
    PassedVnis(s);
    RouterPortsSet(nodes, s.pc.lab.links, defaults, node);
    W.CardInterfaces(s.pc.key.name, s.pc.lab.links, LinkNames(s.pc.lab), s.pc.used, node, "");
  }

  lemma PortIsCard(lab: Lab, nodes: Nodes, defaults: OneOf, lib: Library, slots: seq<string>, e: W.End)
    requires IsAdmitted(lab, nodes, defaults, lib) && IsEnd(lab, e) && IsSRVM(NodeTypeOf(ConnectorAt(lab, e).node))
    requires AreCards(nodes, ConnectorAt(lab, e).node, slots)
    ensures ConnectorAt(lab, e).port.Some? && ConnectorAt(lab, e).port.value in slots
  {
    var c := ConnectorAt(lab, e);
    RouterHasChassis(nodes, lab.links, defaults, LinkNames(lab)[e.link], e.connector);
    RouterPortsSet(nodes, lab.links, defaults, c.node);
    ValidRouter(nodes, lab.links, lib, c.node);
    assert c.port.value in Elems(slots);
  }

  /** From a lab as it was admitted to the machines: when EnsureLinks has succeeded, the loops of getVMI, over all cards of a
      node in any order, give each connector of a vsim, vsri or magc exactly one interface. */
  lemma EveryConnectorAttached(s: State, nodes: Nodes, defaults: OneOf, lib: Library, slots: seq<string>, e: W.End)
    requires LinksPassed(s) && IsAdmitted(s.pc.lab, nodes, defaults, lib)
    requires IsEnd(s.pc.lab, e) && IsSRVM(NodeTypeOf(ConnectorAt(s.pc.lab, e).node))
    requires AreCards(nodes, ConnectorAt(s.pc.lab, e).node, slots)
    ensures |s.pc.used| == |LinkNames(s.pc.lab)|
    ensures var node := ConnectorAt(s.pc.lab, e).node;
            var m := Built(s.pc.lab, s.pc.used);
            && W.AllHavePorts(m, node, Sorted(W.LinksOf(m, node)))
            && W.MachineInterfaces(m, s.pc.key.name, node, slots)
                 [W.AttachmentOf(s.pc.key.name, LinkNames(s.pc.lab), s.pc.used, e)] == 1
  {
    var lab, names, c := s.pc.lab, LinkNames(s.pc.lab), ConnectorAt(s.pc.lab, e);
    BuiltHavePorts(s, nodes, defaults, c.node);
    PortIsCard(lab, nodes, defaults, lib, slots, e);
    W.MachineCount(Built(lab, s.pc.used), s.pc.key.name, lab.links, names, s.pc.used, c.node, slots, e);
    W.AttachmentsConserved(lab.links, names, c.node, slots, e);
  }

  /** The interface uses the LAN of the connector's link: as long as it is stored it is the lab's, and has the interface's spoke
      at the connector's place. */
  lemma AttachedToStoredLan(s: State, e: W.End)
    requires LinksPassed(s) && IsEnd(s.pc.lab, e)
    ensures |s.pc.used| == |LinkNames(s.pc.lab)|
    ensures var a := W.AttachmentOf(s.pc.key.name, LinkNames(s.pc.lab), s.pc.used, e);
            var k := Key(s.pc.key.ns, a.lan);
            k in s.api.lans ==>
              && OwnedBy(s.api.lans[k].owners, s.pc.lab.uid)
              && e.connector < |s.api.lans[k].spokes| && s.api.lans[k].spokes[e.connector] == a.spoke
  {
    PassedVnis(s);
    var link := LinkNames(s.pc.lab)[e.link];
    var k := LanKey(s.pc.key, link);
    SpokeOf(s.pc.key.name, LinkNames(s.pc.lab), s.pc.used, e);
    if k in s.api.lans {
      PassedLan(s, e.link);
      SpokeAt(s.pc.used[e.link], |s.pc.lab.links[link]|, e.connector);
    }
  }

  /** A LAN of a passed link, where it is stored. */
  lemma PassedLan(s: State, j: nat)
    requires LinksPassed(s) && j < |s.pc.used| && j < |LinkNames(s.pc.lab)| && LinkNames(s.pc.lab)[j] in s.pc.lab.links
    requires LanKey(s.pc.key, LinkNames(s.pc.lab)[j]) in s.api.lans
    ensures var link := LinkNames(s.pc.lab)[j];
            var lan := s.api.lans[LanKey(s.pc.key, link)];
            OwnedBy(lan.owners, s.pc.lab.uid) && lan.vni == s.pc.used[j] && lan.spokes == Spokes(lan.vni, |s.pc.lab.links[link]|)
  {
    var link := LinkNames(s.pc.lab)[j];
    LinkSpokes(s.api, s.pc.key, LanKey(s.pc.key, link), link);
  }

  lemma SpokeAt(vni: nat, n: nat, i: nat)
    requires i < n
    ensures Spokes(vni, n)[i] == SpokeName(vni, i)
  {
  }

  lemma SpokeOf(lab: string, names: seq<string>, used: seq<nat>, e: W.End)
    requires e.link < |names| == |used|
    ensures W.AttachmentOf(lab, names, used, e).spoke == SpokeName(used[e.link], e.connector)
    ensures W.AttachmentOf(lab, names, used, e).lan == LanName(lab, names[e.link])
  {
  }

  /** In a lab that was admitted every link's LAN, where it is stored, has at least two spokes. */
  lemma LanHasTwoSpokes(s: State, nodes: Nodes, defaults: OneOf, lib: Library, j: nat)
    requires LinksPassed(s) && IsAdmitted(s.pc.lab, nodes, defaults, lib) && j < |LinkNames(s.pc.lab)|
    requires LanKey(s.pc.key, LinkNames(s.pc.lab)[j]) in s.api.lans
    ensures |s.api.lans[LanKey(s.pc.key, LinkNames(s.pc.lab)[j])].spokes| > 1
  {
    LinkNamesDistinct(s.pc.lab);
    PassedVnis(s);
    PassedLan(s, j);
    ValidLink(nodes, s.pc.lab.links, lib, LinkNames(s.pc.lab)[j]);
  }

  /** The machines of a router node have no link interface that is no connector's. */
  lemma OnlyConnectorsAttached(s: State, nodes: Nodes, defaults: OneOf, node: string, slots: seq<string>, a: W.Attachment)
    returns (e: W.End)
    requires LinksPassed(s) && Settled(nodes, s.pc.lab.links, defaults)
    requires IsSRVM(NodeTypeOf(node)) && |s.pc.used| == |LinkNames(s.pc.lab)|
    requires var m := Built(s.pc.lab, s.pc.used);
             W.AllHavePorts(m, node, Sorted(W.LinksOf(m, node))) && a in W.MachineInterfaces(m, s.pc.key.name, node, slots)
    ensures IsEnd(s.pc.lab, e) && a == W.AttachmentOf(s.pc.key.name, LinkNames(s.pc.lab), s.pc.used, e)
    ensures ConnectorAt(s.pc.lab, e).node == node && ConnectorAt(s.pc.lab, e).port.Some? && ConnectorAt(s.pc.lab, e).port.value in slots
  {
    var lab, names := s.pc.lab, LinkNames(s.pc.lab);
    BuiltHavePorts(s, nodes, defaults, node);
    e := W.MachineOnly(Built(lab, s.pc.used), s.pc.key.name, lab.links, names, s.pc.used, node, slots, a);
    assert names[e.link] in names;
  }

  // ---- stored machines ----

  /** The cards of the lab's routers. */
  ghost function RouterCards(nodes: Nodes): map<string, set<string>> {
    map n | n in nodes && IsRouter(nodes[n]) :: Slots(RouterChassis(nodes[n])).Keys
  }

  /** The card a connector is plugged into. */
  ghost function PlaceOf(lab: Lab, e: W.End): Place
    requires IsEnd(lab, e) && ConnectorAt(lab, e).port.Some?
  {
    Place(ConnectorAt(lab, e).node, ConnectorAt(lab, e).port.value)
  }

  lemma PlaceIsCard(lab: Lab, nodes: Nodes, defaults: OneOf, lib: Library, e: W.End)
    requires IsAdmitted(lab, nodes, defaults, lib) && IsEnd(lab, e) && IsSRVM(NodeTypeOf(ConnectorAt(lab, e).node))
    ensures ConnectorAt(lab, e).port.Some? && IsCard(RouterCards(nodes), PlaceOf(lab, e))
  {
    var node := ConnectorAt(lab, e).node;
    RouterHasChassis(nodes, lab.links, defaults, LinkNames(lab)[e.link], e.connector);
    var slots := Sorted(Slots(ChassisAt(nodes, node).value).Keys);
    AscendingDistinct(slots);
    PortIsCard(lab, nodes, defaults, lib, slots, e);
    assert PlaceOf(lab, e).slot in Elems(slots);
  }

  lemma InterfaceCount(s: State, p: Place, e: W.End)
    requires LinksPassed(s) && IsEnd(s.pc.lab, e) && |s.pc.used| == |LinkNames(s.pc.lab)|
    requires HavePorts(Built(s.pc.lab, s.pc.used), p.node)
    ensures multiset(Interfaces(Built(s.pc.lab, s.pc.used), s.pc.key.name, p))
              [W.AttachmentOf(s.pc.key.name, LinkNames(s.pc.lab), s.pc.used, e)] ==
            if W.Plugged(ConnectorAt(s.pc.lab, e), p.node, p.slot) then 1 else 0
  {
    var lab, names, used := s.pc.lab, LinkNames(s.pc.lab), s.pc.used;
    PassedVnis(s);
    W.SortedNames(lab.links);
    W.LoopsNeedPorts(Built(lab, used), s.pc.key.name, lab.links, names, used, p.node);
    W.CardInterfaces(s.pc.key.name, lab.links, names, used, p.node, p.slot);
    W.NamedCount(s.pc.key.name, names, used, W.CardEnds(lab.links, names, p.node, p.slot, |names|), e);
    W.AttachedOnce(lab.links, names, p.node, p.slot, |names|, e);
  }

  /** Among all cards of the lab a connector's interface is that of its own card. */
  lemma OnlyAtItsCard(s: State, nodes: Nodes, defaults: OneOf, lib: Library, e: W.End)
    requires LinksPassed(s) && IsAdmitted(s.pc.lab, nodes, defaults, lib)
    requires IsEnd(s.pc.lab, e) && IsSRVM(NodeTypeOf(ConnectorAt(s.pc.lab, e).node))
    requires |s.pc.used| == |LinkNames(s.pc.lab)| && ConnectorAt(s.pc.lab, e).port.Some?
    ensures OnlyAt(Built(s.pc.lab, s.pc.used), s.pc.key.name, RouterCards(nodes), PlaceOf(s.pc.lab, e),
                   W.AttachmentOf(s.pc.key.name, LinkNames(s.pc.lab), s.pc.used, e))
  {
    var m := Built(s.pc.lab, s.pc.used);
    BuiltHavePorts(s, nodes, defaults, ConnectorAt(s.pc.lab, e).node);
    forall p | IsCard(RouterCards(nodes), p)
      ensures multiset(Interfaces(m, s.pc.key.name, p))[W.AttachmentOf(s.pc.key.name, LinkNames(s.pc.lab), s.pc.used, e)] ==
              if p == PlaceOf(s.pc.lab, e) then 1 else 0
    {
      if HavePorts(m, p.node) {
        InterfaceCount(s, p, e);
      }
    }
  }

  /** In a new lab each connector of a vsim, vsri or magc ends up in exactly one stored machine, in whatever orders nodes and
      cards are visited, exactly when no other card of the lab has the same machine name as the card it is plugged into. */
  lemma ConnectorPlacedIff(s: State, nodes: Nodes, defaults: OneOf, lib: Library, e: W.End)
    requires LinksPassed(s) && IsAdmitted(s.pc.lab, nodes, defaults, lib)
    requires IsEnd(s.pc.lab, e) && IsSRVM(NodeTypeOf(ConnectorAt(s.pc.lab, e).node))
    ensures |s.pc.used| == |LinkNames(s.pc.lab)| && ConnectorAt(s.pc.lab, e).port.Some?
    ensures var cards := RouterCards(nodes);
            AlwaysPlaced(Built(s.pc.lab, s.pc.used), s.pc.key.name, s.pc.lab.uid, cards,
                         W.AttachmentOf(s.pc.key.name, LinkNames(s.pc.lab), s.pc.used, e))
            <==> Alone(s.pc.key.name, cards, PlaceOf(s.pc.lab, e))
  {
    PassedVnis(s);
    PlaceIsCard(s.pc.lab, nodes, defaults, lib, e);
    OnlyAtItsCard(s, nodes, defaults, lib, e);
    PlacedIff(Built(s.pc.lab, s.pc.used), s.pc.key.name, s.pc.lab.uid, RouterCards(nodes), PlaceOf(s.pc.lab, e),
              W.AttachmentOf(s.pc.key.name, LinkNames(s.pc.lab), s.pc.used, e));
  }

  /** A card whose machine name is its own keeps its connectors also when earlier reconciles made some of the machines. */
  lemma ConnectorStaysPlaced(s: State, nodes: Nodes, defaults: OneOf, lib: Library, e: W.End,
                             stored: map<string, Machine>, order: seq<string>, slots: map<string, seq<string>>)
    requires LinksPassed(s) && IsAdmitted(s.pc.lab, nodes, defaults, lib)
    requires IsEnd(s.pc.lab, e) && IsSRVM(NodeTypeOf(ConnectorAt(s.pc.lab, e).node))
    requires |s.pc.used| == |LinkNames(s.pc.lab)| && ConnectorAt(s.pc.lab, e).port.Some?
    requires LoopOrder(order, slots, RouterCards(nodes)) && NodesNamed(order, slots)
    requires Alone(s.pc.key.name, RouterCards(nodes), PlaceOf(s.pc.lab, e))
    requires Backed(stored, Built(s.pc.lab, s.pc.used), s.pc.key.name, s.pc.lab.uid, RouterCards(nodes))
    requires NoneForeign(stored, s.pc.key.name, s.pc.lab.uid, PlaceOf(s.pc.lab, e))
    ensures OnlyIn(Created(stored, Built(s.pc.lab, s.pc.used), s.pc.key.name, s.pc.lab.uid, Flatten(order, slots)), s.pc.lab.uid,
                   W.AttachmentOf(s.pc.key.name, LinkNames(s.pc.lab), s.pc.used, e),
                   MachineName(s.pc.key.name, PlaceOf(s.pc.lab, e)))
  {
    PlaceIsCard(s.pc.lab, nodes, defaults, lib, e);
    OnlyAtItsCard(s, nodes, defaults, lib, e);
    AloneIsPlaced(stored, Built(s.pc.lab, s.pc.used), s.pc.key.name, s.pc.lab.uid, RouterCards(nodes), order, slots,
                  PlaceOf(s.pc.lab, e), W.AttachmentOf(s.pc.key.name, LinkNames(s.pc.lab), s.pc.used, e));
  }

  /** The names do coincide in ordinary labs: for a user's node such as "vsim-1-A" Default adds the node "vsim-1-a", and the two
      share the machine names of their cards, and their fabric. */
  lemma AddedNodeCollides(nodes: Nodes, links: map<string, seq<Connector>>, lab: string, t: string, id: nat, slot: string)
    requires (t == VSIM || t == MAGC) && id <= MaxInt && UpperNode(t, id) in nodes
    ensures var a, b := UpperNode(t, id), LowerNode(t, id);
            && a in NodeClosure(nodes, links) && b in NodeClosure(nodes, links) && a != b
            && MachineName(lab, Place(a, slot)) == MachineName(lab, Place(b, slot))
            && FabricName(lab, a) == FabricName(lab, b)
    ensures UpperNode(VSIM, 1) == "vsim-1-A" && LowerNode(VSIM, 1) == "vsim-1-a"
  {
    var a, b := UpperNode(t, id), LowerNode(t, id);
    UpperNodeOne();
    UpperNodeAddsLower(t, id);
    AddedNode(nodes, links, a, b);
    SameMachines(lab, a, b, slot);
    SameFabricName(lab, a, b);
  }

  lemma AddedNode(nodes: Nodes, links: map<string, seq<Connector>>, name: string, cpm: string)
    requires name in nodes && CpmName(name) == Some(cpm)
    ensures name in NodeClosure(nodes, links) && cpm in NodeClosure(nodes, links)
  {
    NodeClosureIsLeast(nodes, links);
    assert cpm in CpmNames(NodeClosure(nodes, links).Keys);
  }

  lemma SameMachines(lab: string, a: string, b: string, slot: string)
    requires ToLower(a) == ToLower(b)
    ensures MachineName(lab, Place(a, slot)) == MachineName(lab, Place(b, slot))
  {
    ToLowerConcat(a, "-" + slot);
    ToLowerConcat(b, "-" + slot);
    assert a + "-" + slot == a + ("-" + slot) && b + "-" + slot == b + ("-" + slot);
    SameMachineName(lab, Place(a, slot), Place(b, slot));
  }

  // ---- fabrics ----

  /** For a router of an admitted lab, with the sysinfo generated for its card: every fabric network the card's machine refers
      to stands and is the lab's when the controller has passed the node, except for a line card of a MAG-c whose model
      counts as integrated. */
  lemma AdmittedFabricStands(s: State, nodes: Nodes, defaults: OneOf, lib: Library, node: string, es: seq<Event>,
                             slot: string, sysinfo: string)
    requires PassesNode(s, node, es) && IsAdmitted(s.pc.lab, nodes, defaults, lib)
    requires node in nodes && IsRouter(nodes[node]) && Valid(RouterChassis(nodes[node]))
    requires slot in Slots(RouterChassis(nodes[node])) && IsDefaultSysinfo(RouterChassis(nodes[node]), slot, sysinfo)
    requires !(IsIntegrated(RouterChassis(nodes[node]).model.value) && VmTypeOf(node) == MAGC && !IsCPM(slot))
    ensures forall name | name in FabricNetworks(s.pc.key.name, node, slot, sysinfo) ::
              Stands(Passed(s, node, es).api, Key(s.pc.key.ns, name), s.pc.lab.uid)
  {
    var ch := RouterChassis(nodes[node]);
    DefaultSysinfoAgrees(s.pc.key, node, slot, ch, sysinfo);
    forall name | name in FabricNetworks(s.pc.key.name, node, slot, sysinfo)
      ensures Stands(Passed(s, node, es).api, Key(s.pc.key.ns, name), s.pc.lab.uid)
    {
      PlannedStands(s, node, ch.model.value, es, name);
    }
  }
}

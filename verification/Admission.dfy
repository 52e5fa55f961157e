/** Default as a whole, and what it is for: it settles, so that an update which leaves the spec alone passes the
    immutability check; it writes a shared card's field at most once; it gives every router connector a port. */
module Admission {
  import opened Text
  import opened Chassis
  import opened Cluster
  import opened LabSpec
  import opened NodePasses
  import opened Defaulting

  ghost function TypedNodes(nodes: Nodes): Nodes { map n | n in nodes :: Typed(n, nodes[n]) }

  ghost function LoadedNodes(nodes: Nodes, defaults: OneOf): Nodes { map n | n in nodes :: Loaded(nodes[n], defaults) }

  lemma PassesPrepare(nodes: Nodes, links: map<string, seq<Connector>>, defaults: OneOf)
    ensures WithTypes(LoadedNodes(TypedNodes(NodeClosure(nodes, links)), defaults)) == PreparedNodes(nodes, links, defaults)
  {
  }

  lemma TypedHaveSystems(nodes: Nodes, defaults: OneOf)
    requires !SomeUntyped(nodes)
    ensures forall n | n in nodes :: GetSystem(TypedNodes(nodes)[n]).Some?
    ensures forall n | n in nodes :: GetSystem(LoadedNodes(TypedNodes(nodes), defaults)[n]).Some?
  {
    forall n | n in nodes
      ensures GetSystem(TypedNodes(nodes)[n]).Some? && GetSystem(LoadedNodes(TypedNodes(nodes), defaults)[n]).Some?
    {
      assert !Untyped(n, nodes[n]);
      TypedHasSystem(n, nodes[n]);
      LoadedSettles(Typed(n, nodes[n]), defaults);
    }
  }

  lemma ClosureWithin(nodes: Nodes, links: map<string, seq<Connector>>, cards: set<Card>)
    requires Within(nodes, cards)
    ensures Within(NodeClosure(nodes, links), cards)
  {
    NodeClosureIsLeast(nodes, links);
  }

  lemma TypedWithin(nodes: Nodes, cards: set<Card>)
    requires Within(nodes, cards)
    ensures Within(TypedNodes(nodes), cards)
  {
    forall n | n in nodes
      ensures OneWithin(Typed(n, nodes[n]), cards)
    {
      assert OneWithin(nodes[n], cards);
    }
  }

  lemma LoadedWithin(nodes: Nodes, defaults: OneOf, cards: set<Card>)
    requires Within(nodes, cards) && OneWithin(defaults, cards)
    ensures Within(LoadedNodes(nodes, defaults), cards)
  {
    forall n | n in nodes
      ensures OneWithin(Loaded(nodes[n], defaults), cards)
    {
      assert OneWithin(nodes[n], cards);
    }
  }

  lemma MacKeepsFilled(name: string, one: OneOf, index: nat, m: map<Card, Fields>)
    requires NodeFilled(one, m)
    ensures NodeFilled(WithMac(name, one, index), m)
  {
    FirstOfSame(Kinds, one, WithMac(name, one, index));
  }

  lemma MacsKeepFilled(nodes: Nodes, m: map<Card, Fields>)
    requires NodesFilled(nodes, {}, m)
    ensures NodesFilled(WithMacs(nodes), {}, m)
  {
    forall n | n in nodes
      ensures NodeFilled(WithMacs(nodes)[n], m)
    {
      MacKeepsFilled(n, nodes[n], IndexIn(Sorted(nodes.Keys), n), m);
    }
  }

  /** The links after Default: addresses from the offsets the links were reached at, then ports. */
  ghost predicate LinksDefaulted(nodes: Nodes, links: map<string, seq<Connector>>, links': map<string, seq<Connector>>,
                                 starts: map<string, nat>) {
    Numbered(links, starts)
    && exists mid :: MacsFilled(links, mid, starts, {}) && PortsFilled(nodes, mid, links', {})
  }

  lemma SamePanic(nodes: Nodes, c: Connector, c': Connector)
    requires c'.node == c.node && c'.port == c.port
    ensures ConnectorPanics(nodes, c') == ConnectorPanics(nodes, c)
  {
  }

  lemma FilledConnector(links: map<string, seq<Connector>>, mid: map<string, seq<Connector>>, starts: map<string, nat>, l: string, i: nat)
    requires MacsFilled(links, mid, starts, {}) && l in links && i < |links[l]|
    ensures l in mid && |mid[l]| == |links[l]| && mid[l][i] == WithMacAt(links[l][i], starts[l] + i + 1)
    ensures mid[l][i].node == links[l][i].node && mid[l][i].port == links[l][i].port && mid[l][i].mac.Some?
  {
  }

  lemma PanicsRegardless(nodes: Nodes, links: map<string, seq<Connector>>, mid: map<string, seq<Connector>>, starts: map<string, nat>)
    requires MacsFilled(links, mid, starts, {})
    ensures SomeConnectorPanics(nodes, mid) == SomeConnectorPanics(nodes, links)
  {
    if l, i :| l in links && 0 <= i < |links[l]| && ConnectorPanics(nodes, links[l][i]) {
      FilledConnector(links, mid, starts, l, i);
      SamePanic(nodes, links[l][i], mid[l][i]);
      assert ConnectorPanics(nodes, mid[l][i]);
    }
    if l, i :| l in mid && 0 <= i < |mid[l]| && ConnectorPanics(nodes, mid[l][i]) {
      assert mid[l] == FillMacs(links[l], starts[l]);
      FilledConnector(links, mid, starts, l, i);
      SamePanic(nodes, links[l][i], mid[l][i]);
      assert ConnectorPanics(nodes, links[l][i]);
    }
  }

  lemma NothingWritten(nodes: Nodes, m: map<Card, Fields>)
    ensures AllLabJustified(nodes, m, m)
  {
  }

  method CloseNodes(lab: LabObject) returns (ghost starts: map<string, nat>)
    modifies lab
    ensures lab.nodes == NodeClosure(old(lab.nodes), old(lab.links))
    ensures MacsFilled(old(lab.links), lab.links, starts, {}) && Numbered(old(lab.links), starts)
  {
    starts := FillLinks(lab);
    AddControlCards(lab);
  }

  method TypeAndLoad(lab: LabObject, defaults: OneOf) returns (ok: bool)
    modifies lab`nodes
    ensures ok <==> !SomeUntyped(old(lab.nodes))
    ensures ok ==> lab.nodes == LoadedNodes(TypedNodes(old(lab.nodes)), defaults)
  {
    ghost var nodes := lab.nodes;
    ok := AssignTypes(lab);
    if ok {
      assert lab.nodes == TypedNodes(nodes);
      TypedHaveSystems(nodes, defaults);
      ok := LoadDef(lab, defaults);
    }
  }

  /** The passes after FillDefaultVal. */
  method FillPortsAndMacs(lab: LabObject) returns (ok: bool)
    modifies lab
    ensures ok <==> !SomeConnectorPanics(old(lab.nodes), old(lab.links)) && !SomeMacPanics(old(lab.nodes))
    ensures ok ==> lab.nodes == WithMacs(old(lab.nodes)) && PortsFilled(old(lab.nodes), old(lab.links), lab.links, {})
  {
    ok := FillPorts(lab);
    if ok {
      ok := FillChassisMacs(lab);
    }
  }

  /** The passes after LoadDef; `after` are the fields of the cards when they are through. */
  method FillLab(lab: LabObject, ghost prepared: Nodes, ghost cards: set<Card>) returns (ok: bool, ghost after: map<Card, Fields>)
    requires forall n | n in lab.nodes :: GetSystem(lab.nodes[n]).Some?
    requires Within(lab.nodes, cards) && prepared == WithTypes(lab.nodes)
    modifies lab, cards
    ensures after == Snapshot(cards) && AllLabJustified(prepared, old(Snapshot(cards)), after)
    ensures ok <==> !SomeNodePanics(old(lab.nodes)) && !SomeConnectorPanics(prepared, old(lab.links)) && !SomeMacPanics(prepared)
    ensures ok ==> lab.nodes == WithMacs(prepared) && PortsFilled(prepared, old(lab.links), lab.links, {})
                   && NodesFilled(prepared, {}, after)
  {
    ok := FillNodes(lab, cards);
    after := Snapshot(cards);
    if ok {
      ok := FillPortsAndMacs(lab);
    }
  }

  lemma TypeKeepsPanic(one: OneOf)
    ensures NodePanics(WithType(one)) == NodePanics(one)
  {
    FirstOfSame(Kinds, one, WithType(one));
  }

  lemma TypesKeepPanics(nodes: Nodes)
    ensures SomeNodePanics(WithTypes(nodes)) == SomeNodePanics(nodes)
  {
    forall n | n in nodes
      ensures NodePanics(WithTypes(nodes)[n]) == NodePanics(nodes[n])
    {
      TypeKeepsPanic(nodes[n]);
    }
  }

  lemma PreparedWithin(nodes: Nodes, links: map<string, seq<Connector>>, defaults: OneOf, cards: set<Card>)
    requires Within(nodes, cards) && OneWithin(defaults, cards)
    ensures Within(LoadedNodes(TypedNodes(NodeClosure(nodes, links)), defaults), cards)
  {
    ClosureWithin(nodes, links, cards);
    TypedWithin(NodeClosure(nodes, links), cards);
    LoadedWithin(TypedNodes(NodeClosure(nodes, links)), defaults, cards);
  }

  /** The passes up to LoadDef: the nodes of the closure, each with a system and its defaults. */
  method LoadNodes(lab: LabObject, defaults: OneOf, ghost cards: set<Card>) returns (ok: bool, ghost starts: map<string, nat>)
    requires Within(lab.nodes, cards) && OneWithin(defaults, cards)
    modifies lab
    ensures ok <==> !SomeUntyped(NodeClosure(old(lab.nodes), old(lab.links)))
    ensures ok ==> lab.nodes == LoadedNodes(TypedNodes(NodeClosure(old(lab.nodes), old(lab.links))), defaults)
    ensures ok ==> Within(lab.nodes, cards) && forall n | n in lab.nodes :: GetSystem(lab.nodes[n]).Some?
    ensures MacsFilled(old(lab.links), lab.links, starts, {}) && Numbered(old(lab.links), starts)
    ensures forall c | c in cards :: unchanged(c)
  {
    ghost var nodes, links := lab.nodes, lab.links;
    starts := CloseNodes(lab);
    ok := TypeAndLoad(lab, defaults);
    if ok {
      LoadedAreFit(nodes, links, defaults, cards);
    }
  }

  lemma LoadedAreFit(nodes: Nodes, links: map<string, seq<Connector>>, defaults: OneOf, cards: set<Card>)
    requires Within(nodes, cards) && OneWithin(defaults, cards) && !SomeUntyped(NodeClosure(nodes, links))
    ensures var loaded := LoadedNodes(TypedNodes(NodeClosure(nodes, links)), defaults);
            Within(loaded, cards) && forall n | n in loaded :: GetSystem(loaded[n]).Some?
  {
    PreparedWithin(nodes, links, defaults, cards);
    TypedHaveSystems(NodeClosure(nodes, links), defaults);
  }

  twostate lemma SnapshotKept(cards: set<Card>)
    requires forall c | c in cards :: unchanged(c)
    ensures Snapshot(cards) == old(Snapshot(cards))
  {
    forall c | c in cards
      ensures c.Now() == old(c.Now())
    {
    }
  }

  lemma VerdictIs(nodes: Nodes, links: map<string, seq<Connector>>, mid: map<string, seq<Connector>>, starts: map<string, nat>,
                  defaults: OneOf)
    requires MacsFilled(links, mid, starts, {})
    ensures var loaded := LoadedNodes(TypedNodes(NodeClosure(nodes, links)), defaults);
            var prepared := PreparedNodes(nodes, links, defaults);
            && WithTypes(loaded) == prepared
            && VerdictOf(nodes, links, defaults) ==
               if SomeUntyped(NodeClosure(nodes, links)) then Err
               else if SomeNodePanics(loaded) || SomeConnectorPanics(prepared, mid) || SomeMacPanics(prepared) then Panicked
               else Ok
  {
    PassesPrepare(nodes, links, defaults);
    TypesKeepPanics(LoadedNodes(TypedNodes(NodeClosure(nodes, links)), defaults));
    PanicsRegardless(PreparedNodes(nodes, links, defaults), links, mid, starts);
  }

  /** What Default makes of a lab when it succeeds: the new lab is a function of the old one and the configuration, but for
      the offsets at which links were reached and the slots an integrated chassis yields first; all cards are filled. */
  ghost predicate IsDefaulted(nodes: Nodes, links: map<string, seq<Connector>>, defaults: OneOf,
                              nodes': Nodes, links': map<string, seq<Connector>>, starts: map<string, nat>, after: map<Card, Fields>) {
    && nodes' == DefaultedNodes(nodes, links, defaults)
    && LinksDefaulted(PreparedNodes(nodes, links, defaults), links, links', starts)
    && NodesFilled(nodes', {}, after)
  }

  lemma AreLinksDefaulted(prepared: Nodes, links: map<string, seq<Connector>>, mid: map<string, seq<Connector>>,
                          links': map<string, seq<Connector>>, starts: map<string, nat>)
    requires PortsFilled(prepared, mid, links', {}) && MacsFilled(links, mid, starts, {}) && Numbered(links, starts)
    ensures LinksDefaulted(prepared, links, links', starts)
  {
    assert links.Keys - {} == links.Keys;
  }

  lemma LabIsDefaulted(nodes: Nodes, links: map<string, seq<Connector>>, defaults: OneOf, prepared: Nodes,
                       links': map<string, seq<Connector>>, starts: map<string, nat>, after: map<Card, Fields>)
    requires prepared == PreparedNodes(nodes, links, defaults)
    requires LinksDefaulted(prepared, links, links', starts) && NodesFilled(WithMacs(prepared), {}, after)
    ensures IsDefaulted(nodes, links, defaults, WithMacs(prepared), links', starts, after)
  {
  }

  /** LabCustomDefaulter.Default. `cards` holds every card object the lab or the configuration refers to. */
  method Default(lab: LabObject, defaults: OneOf, ghost cards: set<Card>)
    returns (r: Verdict, ghost starts: map<string, nat>, ghost after: map<Card, Fields>)
    requires Within(lab.nodes, cards) && OneWithin(defaults, cards)
    modifies lab, cards
    ensures r == VerdictOf(old(lab.nodes), old(lab.links), defaults)
    ensures r.Ok? ==> IsDefaulted(old(lab.nodes), old(lab.links), defaults, lab.nodes, lab.links, starts, after)
    // No field of any card changes but from nothing to a default of a slot the card is in.
    ensures after == Snapshot(cards)
    ensures AllLabJustified(PreparedNodes(old(lab.nodes), old(lab.links), defaults), old(Snapshot(cards)), after)
  {
    ghost var nodes, links := lab.nodes, lab.links;
    ghost var prepared := PreparedNodes(nodes, links, defaults);
    after := Snapshot(cards);
    NothingWritten(prepared, after);
    var ok;
    ok, starts := LoadNodes(lab, defaults, cards);
    SnapshotKept(cards);
    ghost var mid := lab.links;
    VerdictIs(nodes, links, mid, starts, defaults);
    r := Err;
    if ok {
      ok, after := FillLab(lab, prepared, cards);
      r := Panicked;
      if ok {
        MacsKeepFilled(prepared, after);
        AreLinksDefaulted(prepared, links, mid, lab.links, starts);
        LabIsDefaulted(nodes, links, defaults, prepared, lab.links, starts, after);
        r := Ok;
      }
    }
  }
}

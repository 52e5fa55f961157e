/** Updates of an admitted lab. The operator updates a lab when it adds or removes its finalizer; the request is defaulted and
    validated like any other. */
module Updates {
  import opened Wrappers
  import opened Chassis
  import opened Cluster
  import opened LabSpec
  import opened NodePasses
  import opened Defaulting
  import opened Admission
  import opened Settling
  import opened Validation

  // ---- which configurations leave a lab alone ----

  predicate NothingNew<T>(given: Option<T>, default: Option<T>) { default.Some? ==> given.Some? }

  /** The configuration sets no field that the node leaves unset. */
  predicate SetsNothingNew(one: OneOf, config: OneOf) {
    match GetSystem(one)
    case Some(k) => k in config ==> SystemCovers(one[k], config[k])
    case None => true
  }

  predicate SystemCovers(given: System, default: System) {
    && default.leaves.Keys <= given.leaves.Keys
    && (default.chassis.Some? ==> given.chassis.Some? && ChassisCovers(given.chassis.value, default.chassis.value))
  }

  predicate ChassisCovers(given: Chassis, default: Chassis) {
    && NothingNew(given.nodeType, default.nodeType) && NothingNew(given.model, default.model)
    && NothingNew(given.cards, default.cards) && NothingNew(given.sfm, default.sfm) && NothingNew(given.mac, default.mac)
  }

  lemma FillUnchangedIff(given: System, default: System)
    ensures FillSystem(given, default) == given <==> SystemCovers(given, default)
  {
    assert default.leaves + given.leaves == given.leaves <==> default.leaves.Keys <= given.leaves.Keys by {
      if default.leaves + given.leaves == given.leaves {
        assert (default.leaves + given.leaves).Keys == given.leaves.Keys;
      }
    }
  }

  /** LoadDef leaves a node as it is exactly when the configuration sets nothing new. */
  lemma LoadedUnchangedIff(one: OneOf, config: OneOf)
    ensures Loaded(one, config) == one <==> SetsNothingNew(one, config)
  {
    var k := GetSystem(one);
    if k.Some? && k.value in config {
      FillUnchangedIff(one[k.value], config[k.value]);
      assert one[k.value := one[k.value]] == one;
      assert Loaded(one, config)[k.value] == FillSystem(one[k.value], config[k.value]);
    }
  }

  lemma SameCovers(a: OneOf, b: OneOf, config: OneOf, m: map<Card, Fields>)
    requires SameOne(a, b, m) && SetsNothingNew(b, config)
    ensures SetsNothingNew(a, config)
  {
    FirstOfSame(Kinds, a, b);
    var k := GetSystem(a);
    if k.Some? {
      assert SameSystem(a[k.value], b[k.value], m);
    }
  }

  ghost predicate AllCovered(nodes: Nodes, config: OneOf) { forall n | n in nodes :: SetsNothingNew(nodes[n], config) }

  lemma SettledUnder(nodes: Nodes, links: map<string, seq<Connector>>, d1: OneOf, d2: OneOf)
    requires Settled(nodes, links, d1) && AllCovered(nodes, d2)
    ensures Settled(nodes, links, d2)
  {
    forall n | n in nodes
      ensures NodeSettled(n, nodes[n], d2)
    {
      assert NodeSettled(n, nodes[n], d1) && SetsNothingNew(nodes[n], d2);
      LoadedUnchangedIff(nodes[n], d2);
    }
  }

  /** What has been defaulted under a configuration is covered by it. */
  lemma SettledIsCovered(nodes: Nodes, links: map<string, seq<Connector>>, d: OneOf)
    requires Settled(nodes, links, d)
    ensures AllCovered(nodes, d)
  {
    forall n | n in nodes
      ensures SetsNothingNew(nodes[n], d)
    {
      assert NodeSettled(n, nodes[n], d);
      LoadedUnchangedIff(nodes[n], d);
    }
  }

  lemma SameAllCovered(nodes: Nodes, nodes': Nodes, links: map<string, seq<Connector>>, links': map<string, seq<Connector>>,
                       config: OneOf, m: map<Card, Fields>)
    requires SameSpec(nodes, links, nodes', links', m) && AllCovered(nodes', config)
    ensures AllCovered(nodes, config)
  {
    forall n | n in nodes
      ensures SetsNothingNew(nodes[n], config)
    {
      assert SameOne(nodes[n], nodes'[n], m);
      SameCovers(nodes[n], nodes'[n], config, m);
    }
  }

  /** For instance, a configuration that comes to set one field a node of the stored lab lacks covers it no more. */
  lemma NewDefaultIsNew(one: OneOf, name: string, value: string)
    requires GetSystem(one).Some? && name !in one[GetSystem(one).value].leaves
    ensures !SetsNothingNew(one, map[GetSystem(one).value := System(None, map[name := value])])
  {
    assert name in (map[name := value]).Keys;
  }

  // ---- validation of a copy ----

  lemma SamePortsAreSlots(a: Chassis, b: Chassis, name: string, links: map<string, seq<Connector>>)
    requires Slots(a).Keys == Slots(b).Keys
    ensures PortsAreSlots(a, name, links) <==> PortsAreSlots(b, name, links)
  {
  }

  lemma SameSystemValid(kind: string, a: System, b: System, name: string, links: map<string, seq<Connector>>, lib: Library,
                        m: map<Card, Fields>)
    requires SameSystem(a, b, m)
    ensures SystemValid(kind, a, name, links, lib) <==> SystemValid(kind, b, name, links, lib)
  {
    if a.chassis.Some? {
      SameFillPanics(a.chassis.value, b.chassis.value, m);
      SamePortsAreSlots(a.chassis.value, b.chassis.value, name, links);
    }
  }

  lemma {:induction false} SpecifiedSame(kinds: seq<string>, a: OneOf, b: OneOf)
    requires a.Keys == b.Keys
    ensures Specified(kinds, a) == Specified(kinds, b)
  {
    if kinds != [] {
      SpecifiedSame(kinds[..|kinds| - 1], a, b);
    }
  }

  lemma SameNodeValid(name: string, a: OneOf, b: OneOf, links: map<string, seq<Connector>>, lib: Library, m: map<Card, Fields>)
    requires SameOne(a, b, m) && NodeValid(name, a, links, lib)
    ensures NodeValid(name, b, links, lib)
  {
    SpecifiedSame(Kinds, a, b);
    FirstOfSame(Kinds, a, b);
    var k := GetSystem(a).value;
    assert SameSystem(a[k], b[k], m);
    SameSystemValid(k, a[k], b[k], name, links, lib, m);
  }

  /** A spec that equals a valid one is valid: the second check of ValidateUpdate adds nothing to the first. */
  lemma SameSpecValid(nodes: Nodes, nodes': Nodes, links: map<string, seq<Connector>>, lib: Library, m: map<Card, Fields>)
    requires SameSpec(nodes, links, nodes', links, m) && SpecValid(nodes, links, lib)
    ensures SpecValid(nodes', links, lib)
  {
    forall n | n in nodes'
      ensures NodeValid(n, nodes'[n], links, lib)
    {
      assert SameOne(nodes[n], nodes'[n], m) && NodeValid(n, nodes[n], links, lib);
      SameNodeValid(n, nodes[n], nodes'[n], links, lib, m);
    }
    var n :| n in nodes;
    assert n in nodes';
  }

  // ---- the spec as a value ----

  /** A card as it is written in a spec: by what it holds, not by which object it is. */
  datatype CardValue = CardValue(model: Option<string>, mdas: Option<seq<string>>, xioms: map<string, Xiom>, fields: Fields)

  datatype SystemValue = SystemValue(leaves: map<string, string>, chassis: Option<Chassis>, cards: map<string, CardValue>)

  function CardOf(c: Card, m: map<Card, Fields>): CardValue {
    CardValue(c.model, c.mdas, c.xioms, if c in m then m[c] else Fields(None, None, None, None))
  }

  function CardsOf(cards: map<string, Card>, m: map<Card, Fields>): map<string, CardValue> {
    map slot | slot in cards :: CardOf(cards[slot], m)
  }

  /** The chassis without its cards, but with the map if it has one. */
  function Without(ch: Chassis): Chassis { ch.(cards := if ch.cards.Some? then Some(map[]) else None) }

  function SystemOf(s: System, m: map<Card, Fields>): SystemValue {
    match s.chassis
    case None => SystemValue(s.leaves, None, map[])
    case Some(ch) => SystemValue(s.leaves, Some(Without(ch)), CardsOf(Slots(ch), m))
  }

  function OneValue(one: OneOf, m: map<Card, Fields>): map<string, SystemValue> { map k | k in one :: SystemOf(one[k], m) }

  function NodesValue(nodes: Nodes, m: map<Card, Fields>): map<string, map<string, SystemValue>> {
    map n | n in nodes :: OneValue(nodes[n], m)
  }

  predicate CardsKnown(s: System, m: map<Card, Fields>) { s.chassis.Some? ==> Slots(s.chassis.value).Values <= m.Keys }

  lemma CardEqualIff(a: Card, b: Card, m: map<Card, Fields>)
    requires a in m && b in m
    ensures SameCard(a, b, m) <==> CardOf(a, m) == CardOf(b, m)
  {
  }

  lemma CardsEqualIff(x: map<string, Card>, y: map<string, Card>, m: map<Card, Fields>)
    requires x.Values <= m.Keys && y.Values <= m.Keys && x.Keys == y.Keys
    ensures (forall s | s in x :: x[s] in m && y[s] in m && SameCard(x[s], y[s], m)) <==> CardsOf(x, m) == CardsOf(y, m)
  {
    assert CardsOf(x, m).Keys == x.Keys && CardsOf(y, m).Keys == y.Keys;
    forall s | s in x
      ensures x[s] in m && y[s] in m && (SameCard(x[s], y[s], m) <==> CardsOf(x, m)[s] == CardsOf(y, m)[s])
    {
      assert x[s] in x.Values && y[s] in y.Values;
      CardEqualIff(x[s], y[s], m);
    }
  }

  lemma ChassisEqualIff(a: Chassis, b: Chassis, m: map<Card, Fields>)
    requires Slots(a).Values <= m.Keys && Slots(b).Values <= m.Keys
    ensures SameChassis(a, b, m) <==> Without(a) == Without(b) && CardsOf(Slots(a), m) == CardsOf(Slots(b), m)
  {
    assert CardsOf(Slots(a), m).Keys == Slots(a).Keys && CardsOf(Slots(b), m).Keys == Slots(b).Keys;
    if Slots(a).Keys == Slots(b).Keys {
      CardsEqualIff(Slots(a), Slots(b), m);
    }
  }

  lemma SystemEqualIff(a: System, b: System, m: map<Card, Fields>)
    requires CardsKnown(a, m) && CardsKnown(b, m)
    ensures SameSystem(a, b, m) <==> SystemOf(a, m) == SystemOf(b, m)
  {
    if a.chassis.Some? && b.chassis.Some? {
      ChassisEqualIff(a.chassis.value, b.chassis.value, m);
    }
  }

  lemma OneEqualIff(a: OneOf, b: OneOf, m: map<Card, Fields>)
    requires OneWithin(a, m.Keys) && OneWithin(b, m.Keys)
    ensures SameOne(a, b, m) <==> OneValue(a, m) == OneValue(b, m)
  {
    assert OneValue(a, m).Keys == a.Keys && OneValue(b, m).Keys == b.Keys;
    if a.Keys == b.Keys {
      forall k | k in a
        ensures SameSystem(a[k], b[k], m) <==> OneValue(a, m)[k] == OneValue(b, m)[k]
      {
        SystemEqualIff(a[k], b[k], m);
      }
    }
  }

  /** What an update may be: the comparison accepts a spec exactly when it is written the same, in every field of every card,
      system and node and in every link. */
  lemma SameSpecIff(nodes: Nodes, links: map<string, seq<Connector>>, nodes': Nodes, links': map<string, seq<Connector>>,
                    m: map<Card, Fields>)
    requires Within(nodes, m.Keys) && Within(nodes', m.Keys)
    ensures SameSpec(nodes, links, nodes', links', m) <==> links == links' && NodesValue(nodes, m) == NodesValue(nodes', m)
  {
    assert NodesValue(nodes, m).Keys == nodes.Keys && NodesValue(nodes', m).Keys == nodes'.Keys;
    if nodes.Keys == nodes'.Keys {
      forall n | n in nodes
        ensures SameOne(nodes[n], nodes'[n], m) <==> NodesValue(nodes, m)[n] == NodesValue(nodes', m)[n]
      {
        OneEqualIff(nodes[n], nodes'[n], m);
      }
    }
  }

  // ---- an update ----

  /** ValidateUpdate: the spec is the stored one, and valid. */
  ghost predicate UpdateAccepted(stored: Nodes, links: map<string, seq<Connector>>, nodes: Nodes, links': map<string, seq<Connector>>,
                                 m: map<Card, Fields>, lib: Library) {
    SameSpec(stored, links, nodes, links', m) && SpecValid(nodes, links', lib)
  }

  lemma CoveredIsOk(stored: Nodes, nodes: Nodes, links: map<string, seq<Connector>>, admitted: OneOf, config: OneOf, m: map<Card, Fields>)
    requires Settled(stored, links, admitted) && NodesFilled(stored, {}, m) && SameSpec(stored, links, nodes, links, m)
    requires AllCovered(stored, config)
    ensures Settled(nodes, links, config) && NodesFilled(nodes, {}, m) && VerdictOf(nodes, links, config) == Ok
  {
    SettledUnder(stored, links, admitted, config);
    CopyIsSettled(stored, nodes, links, config, m);
    SettledIsFixed(nodes, links, config);
  }

  lemma CoveredIsAccepted(stored: Nodes, nodes: Nodes, links: map<string, seq<Connector>>, config: OneOf, before: map<Card, Fields>,
                          nodes': Nodes, links': map<string, seq<Connector>>, starts: map<string, nat>, after: map<Card, Fields>,
                          lib: Library)
    requires Settled(nodes, links, config) && NodesFilled(nodes, {}, before)
    requires SameSpec(stored, links, nodes, links, before) && SpecValid(stored, links, lib)
    requires IsDefaulted(nodes, links, config, nodes', links', starts, after)
    requires AllLabJustified(PreparedNodes(nodes, links, config), before, after)
    ensures nodes' == nodes && links' == links && after == before
    ensures SameSpec(stored, links, nodes', links', after) && SpecValid(nodes', links', lib)
  {
    SettledUnchanged(nodes, links, config, before, nodes', links', starts, after);
    SameSpecValid(stored, nodes, links, lib, before);
  }

  lemma AcceptedIsCovered(stored: Nodes, nodes: Nodes, links: map<string, seq<Connector>>, config: OneOf,
                          nodes': Nodes, links': map<string, seq<Connector>>, starts: map<string, nat>, after: map<Card, Fields>)
    requires VerdictOf(nodes, links, config) == Ok && IsDefaulted(nodes, links, config, nodes', links', starts, after)
    requires SameSpec(stored, links, nodes', links', after)
    ensures AllCovered(stored, config)
  {
    DefaultSettles(nodes, links, config, nodes', links', starts, after);
    SettledIsCovered(nodes', links', config);
    SameAllCovered(stored, nodes', links, links', config, after);
  }

  lemma UpdateIff(stored: Nodes, nodes: Nodes, links: map<string, seq<Connector>>, admitted: OneOf, config: OneOf,
                  before: map<Card, Fields>, r: Verdict, nodes': Nodes, links': map<string, seq<Connector>>,
                  starts: map<string, nat>, after: map<Card, Fields>,
                  lib: Library)
    requires Settled(stored, links, admitted) && NodesFilled(stored, {}, before) && SpecValid(stored, links, lib)
    requires SameSpec(stored, links, nodes, links, before)
    requires r == VerdictOf(nodes, links, config)
    requires r.Ok? ==> IsDefaulted(nodes, links, config, nodes', links', starts, after)
    requires AllLabJustified(PreparedNodes(nodes, links, config), before, after)
    ensures r.Ok? && UpdateAccepted(stored, links, nodes', links', after, lib) <==> AllCovered(stored, config)
    ensures AllCovered(stored, config) ==> nodes' == nodes && links' == links && after == before
  {
    if AllCovered(stored, config) {
      CoveredIsOk(stored, nodes, links, admitted, config, before);
      CoveredIsAccepted(stored, nodes, links, config, before, nodes', links', starts, after, lib);
    } else if r.Ok? && UpdateAccepted(stored, links, nodes', links', after, lib) {
      AcceptedIsCovered(stored, nodes, links, config, nodes', links', starts, after);
    }
  }

  /** A request that leaves the spec of an admitted lab alone, with the nodes `stored`, under the configuration of the moment:
      it is accepted exactly when that configuration sets no field the stored nodes leave unset. `admitted` is the
      configuration the lab was admitted under. */
  method AdmitUpdate(lab: LabObject, config: OneOf, ghost stored: Nodes, ghost admitted: OneOf, ghost lib: Library,
                     ghost cards: set<Card>)
    returns (r: Verdict, ghost m: map<Card, Fields>)
    requires Within(lab.nodes, cards) && OneWithin(config, cards)
    requires Settled(stored, lab.links, admitted) && NodesFilled(stored, {}, Snapshot(cards)) && SpecValid(stored, lab.links, lib)
    requires SameSpec(stored, lab.links, lab.nodes, lab.links, Snapshot(cards))
    modifies lab, cards
    ensures m == Snapshot(cards)
    ensures r.Ok? && UpdateAccepted(stored, old(lab.links), lab.nodes, lab.links, m, lib) <==> AllCovered(stored, config)
    ensures AllCovered(stored, config) ==> lab.nodes == old(lab.nodes) && lab.links == old(lab.links) && m == old(Snapshot(cards))
  {
    ghost var nodes, links, starts, before := lab.nodes, lab.links, map[], Snapshot(cards);
    r, starts, m := Default(lab, config, cards);
    UpdateIff(stored, nodes, links, admitted, config, before, r, lab.nodes, lab.links, starts, m, lib);
  }

  /** As long as the configuration it was admitted under is in force, every such request is accepted: the operator can add and
      remove its finalizer. */
  method FinalizerUpdatePasses(lab: LabObject, config: OneOf, ghost stored: Nodes, ghost lib: Library, ghost cards: set<Card>)
    returns (r: Verdict, ghost m: map<Card, Fields>)
    requires Within(lab.nodes, cards) && OneWithin(config, cards)
    requires Settled(stored, lab.links, config) && NodesFilled(stored, {}, Snapshot(cards)) && SpecValid(stored, lab.links, lib)
    requires SameSpec(stored, lab.links, lab.nodes, lab.links, Snapshot(cards))
    modifies lab, cards
    ensures m == Snapshot(cards) == old(Snapshot(cards)) && lab.nodes == old(lab.nodes) && lab.links == old(lab.links)
    ensures r.Ok? && UpdateAccepted(stored, old(lab.links), lab.nodes, lab.links, m, lib)
  {
    SettledIsCovered(stored, lab.links, config);
    r, m := AdmitUpdate(lab, config, stored, config, lib, cards);
  }
}

/** The admission webhook's Default: its passes over the maps of a lab, each in whatever order its map yields, proved to
    compute a function of the lab that does not depend on that order, and to write a shared card's field at most once. */
module Defaulting {
  import opened Wrappers
  import opened Text
  import opened Names
  import opened Chassis
  import opened DefaultPort
  import opened Cluster
  import opened LabSpec
  import opened NodePasses
  import Mac

  // ---- FillDefaultVal ----

  /** All card objects that can be reached from the nodes are in `cards`. */
  ghost predicate Within(nodes: Nodes, cards: set<Card>) {
    forall n | n in nodes :: OneWithin(nodes[n], cards)
  }

  ghost predicate OneWithin(one: OneOf, cards: set<Card>) {
    forall k | k in one && one[k].chassis.Some? :: Slots(one[k].chassis.value).Values <= cards
  }

  predicate IsRouter(one: OneOf) {
    GetSystem(one).Some? && IsSRVM(GetSystem(one).value) && one[GetSystem(one).value].chassis.Some?
  }

  function RouterChassis(one: OneOf): Chassis
    requires IsRouter(one)
  {
    one[GetSystem(one).value].chassis.value
  }

  ghost predicate Holds(nodes: Nodes, n: string) { n in nodes && IsRouter(nodes[n]) && Valid(RouterChassis(nodes[n])) }

  ghost predicate SomeSysinfo(nodes: Nodes, c: Card, s: Option<string>) {
    exists n :: Holds(nodes, n) && SysinfoFor(RouterChassis(nodes[n]), c, s)
  }

  ghost predicate SomeMemory(nodes: Nodes, c: Card, q: Option<string>) {
    exists n :: Holds(nodes, n) && MemoryFor(RouterChassis(nodes[n]), c, q)
  }

  ghost predicate SomeCpu(nodes: Nodes, c: Card, q: Option<string>) {
    exists n :: Holds(nodes, n) && CpuFor(RouterChassis(nodes[n]), c, q)
  }

  ghost predicate SomePorts(nodes: Nodes, c: Card, ports: Option<seq<Port>>) {
    exists n :: Holds(nodes, n) && PortsFor(RouterChassis(nodes[n]), c, ports)
  }

  /** Every field is what it was or, if that was nothing, the default for a slot of some node that the card is in. */
  ghost predicate LabJustified(nodes: Nodes, c: Card, before: Fields, after: Fields) {
    && Became(before.sysInfo, after.sysInfo, SomeSysinfo(nodes, c, after.sysInfo))
    && Became(before.reqMemory, after.reqMemory, SomeMemory(nodes, c, after.reqMemory))
    && Became(before.reqCpu, after.reqCpu, SomeCpu(nodes, c, after.reqCpu))
    && Became(before.listenPorts, after.listenPorts, SomePorts(nodes, c, after.listenPorts))
  }

  lemma LabJustifiedThen(nodes: Nodes, c: Card, a: Fields, b: Fields, d: Fields)
    requires LabJustified(nodes, c, a, b) && LabJustified(nodes, c, b, d)
    ensures LabJustified(nodes, c, a, d)
  {
  }

  lemma ChassisJustified(nodes: Nodes, n: string, c: Card, a: Fields, b: Fields)
    requires n in nodes && IsRouter(nodes[n]) && Justified(RouterChassis(nodes[n]), c, a, b)
    ensures LabJustified(nodes, c, a, b)
  {
    if Valid(RouterChassis(nodes[n])) {
      assert Holds(nodes, n);
    }
  }

  lemma LabJustifiedIsWrittenOnce(nodes: Nodes, c: Card, before: Fields, after: Fields)
    requires LabJustified(nodes, c, before, after)
    ensures WrittenOnce(before, after)
  {
  }

  /** The fields of some cards at one moment. */
  ghost function Snapshot(cards: set<Card>): (m: map<Card, Fields>)
    reads cards
    ensures m.Keys == cards
  {
    map c | c in cards :: c.Now()
  }

  ghost predicate Stayed(before: map<Card, Fields>, after: map<Card, Fields>) {
    before.Keys == after.Keys && forall c | c in before :: WrittenOnce(before[c], after[c])
  }

  ghost predicate ChassisFilled(ch: Chassis, m: map<Card, Fields>) {
    Slots(ch).Values <= m.Keys
    && (Valid(ch) ==> forall s | s in Slots(ch) :: IsFilled(m[Slots(ch)[s]], ch.nodeType.value, s, Slots(ch)[s].mdas))
  }

  lemma ChassisFilledStays(ch: Chassis, before: map<Card, Fields>, after: map<Card, Fields>)
    requires Stayed(before, after) && ChassisFilled(ch, before)
    ensures ChassisFilled(ch, after)
  {
  }

  ghost predicate NodeFilled(one: OneOf, m: map<Card, Fields>) { IsRouter(one) ==> ChassisFilled(RouterChassis(one), m) }

  lemma NodeFilledStays(one: OneOf, before: map<Card, Fields>, after: map<Card, Fields>)
    requires Stayed(before, after) && NodeFilled(one, before)
    ensures NodeFilled(one, after)
  {
    if IsRouter(one) {
      ChassisFilledStays(RouterChassis(one), before, after);
    }
  }

  ghost predicate AllLabJustified(nodes: Nodes, before: map<Card, Fields>, after: map<Card, Fields>) {
    before.Keys == after.Keys && forall c | c in before :: LabJustified(nodes, c, before[c], after[c])
  }

  lemma AllLabJustifiedStayed(nodes: Nodes, before: map<Card, Fields>, after: map<Card, Fields>)
    requires AllLabJustified(nodes, before, after)
    ensures Stayed(before, after)
  {
    forall c | c in before
      ensures WrittenOnce(before[c], after[c])
    {
      LabJustifiedIsWrittenOnce(nodes, c, before[c], after[c]);
    }
  }

  lemma AllLabJustifiedThen(nodes: Nodes, a: map<Card, Fields>, b: map<Card, Fields>, d: map<Card, Fields>)
    requires AllLabJustified(nodes, a, b) && AllLabJustified(nodes, b, d)
    ensures AllLabJustified(nodes, a, d)
  {
    forall c | c in a
      ensures LabJustified(nodes, c, a[c], d[c])
    {
      LabJustifiedThen(nodes, c, a[c], b[c], d[c]);
    }
  }

  // ---- FillDefaultVal of every node ----

  lemma WithTypeFacts(one: OneOf)
    requires GetSystem(one).Some?
    ensures GetSystem(WithType(one)) == GetSystem(one)
    ensures IsSRVM(GetSystem(one).value) && one[GetSystem(one).value].chassis.Some? ==>
              IsRouter(WithType(one))
              && RouterChassis(WithType(one)) == one[GetSystem(one).value].chassis.value.(nodeType := GetSystem(one))
    ensures IsRouter(WithType(one)) ==> IsSRVM(GetSystem(one).value) && one[GetSystem(one).value].chassis.Some?
  {
    FirstOfSame(Kinds, one, WithType(one));
  }

  /** FillDefaultVal of one node: VSIM, VSRI, MAGC and SRSim set the type; the first three then fill the cards. */
  method FillNode(lab: LabObject, name: string, ghost target: Nodes, ghost cards: set<Card>) returns (ok: bool)
    requires name in lab.nodes && GetSystem(lab.nodes[name]).Some? && OneWithin(lab.nodes[name], cards)
    requires name in target && target[name] == WithType(lab.nodes[name])
    modifies lab`nodes, cards
    ensures ok <==> !NodePanics(old(lab.nodes)[name])
    ensures lab.nodes == old(lab.nodes)[name := target[name]]
    ensures ok ==> NodeFilled(target[name], Snapshot(cards))
    ensures AllLabJustified(target, old(Snapshot(cards)), Snapshot(cards))
  {
    ghost var before := Snapshot(cards);
    var one := lab.nodes[name];
    var kind := GetSystem(one).value;
    WithTypeFacts(one);
    assert old(lab.nodes)[name := one] == old(lab.nodes);
    if !IsSRType(kind) {
      return true;
    }
    if one[kind].chassis.None? {
      return false;
    }
    var chassis := one[kind].chassis.value.(nodeType := Some(kind));
    lab.nodes := lab.nodes[name := one[kind := one[kind].(chassis := Some(chassis))]];
    if IsSRVM(kind) {
      assert Slots(chassis) == Slots(one[kind].chassis.value);
      ok := FillCards(chassis);
      forall c | c in cards
        ensures LabJustified(target, c, before[c], c.Now())
      {
        if c in Slots(chassis).Values {
          ChassisJustified(target, name, c, before[c], c.Now());
        }
      }
    } else {
      ok := true;
    }
  }

  ghost function WithTypes(nodes: Nodes): Nodes { map n | n in nodes :: WithType(nodes[n]) }

  /** The nodes not in `todo` have been replaced by those of `target`. */
  ghost predicate Replaced(start: Nodes, now: Nodes, target: Nodes, todo: set<string>) {
    && now.Keys == start.Keys == target.Keys
    && forall n | n in start :: now[n] == if n in todo then start[n] else target[n]
  }

  ghost predicate NodesFilled(nodes: Nodes, todo: set<string>, m: map<Card, Fields>) {
    forall n | n in nodes && n !in todo :: NodeFilled(nodes[n], m)
  }

  lemma NodesFilledStays(nodes: Nodes, todo: set<string>, before: map<Card, Fields>, after: map<Card, Fields>)
    requires Stayed(before, after) && NodesFilled(nodes, todo, before)
    ensures NodesFilled(nodes, todo, after)
  {
    forall n | n in nodes && n !in todo
      ensures NodeFilled(nodes[n], after)
    {
      NodeFilledStays(nodes[n], before, after);
    }
  }

  /** How far the loop over the nodes has come. */
  ghost predicate FilledUpTo(start: Nodes, now: Nodes, todo: set<string>, before: map<Card, Fields>, m: map<Card, Fields>) {
    && Replaced(start, now, WithTypes(start), todo)
    && (forall n | n in start && n !in todo :: !NodePanics(start[n]))
    && NodesFilled(WithTypes(start), todo, m) && AllLabJustified(WithTypes(start), before, m)
  }

  lemma FilledUpToStep(start: Nodes, now: Nodes, todo: set<string>, before: map<Card, Fields>, m: map<Card, Fields>,
                       name: string, m': map<Card, Fields>)
    requires FilledUpTo(start, now, todo, before, m) && name in todo && name in start && !NodePanics(start[name])
    requires AllLabJustified(WithTypes(start), m, m') && NodeFilled(WithTypes(start)[name], m')
    ensures FilledUpTo(start, now[name := WithTypes(start)[name]], todo - {name}, before, m')
  {
    AllLabJustifiedThen(WithTypes(start), before, m, m');
    AllLabJustifiedStayed(WithTypes(start), m, m');
    NodesFilledStays(WithTypes(start), todo, m, m');
  }

  lemma FilledUpToStart(nodes: Nodes, m: map<Card, Fields>)
    ensures FilledUpTo(nodes, nodes, nodes.Keys, m, m)
  {
  }

  lemma FilledUpToEnd(start: Nodes, now: Nodes, before: map<Card, Fields>, m: map<Card, Fields>)
    requires FilledUpTo(start, now, {}, before, m)
    ensures now == WithTypes(start) && !SomeNodePanics(start) && NodesFilled(now, {}, m)
  {
  }

  /** FillDefaultVal of every node; not ok is a panic. */
  method FillNodes(lab: LabObject, ghost cards: set<Card>) returns (ok: bool)
    requires forall n | n in lab.nodes :: GetSystem(lab.nodes[n]).Some?
    requires Within(lab.nodes, cards)
    modifies lab`nodes, cards
    ensures ok <==> !SomeNodePanics(old(lab.nodes))
    ensures ok ==> lab.nodes == WithTypes(old(lab.nodes)) && NodesFilled(lab.nodes, {}, Snapshot(cards))
    ensures AllLabJustified(WithTypes(old(lab.nodes)), old(Snapshot(cards)), Snapshot(cards))
  {
    ghost var start, before := lab.nodes, Snapshot(cards);
    var todo := lab.nodes.Keys;
    FilledUpToStart(start, before);
    while todo != {}
      invariant todo <= start.Keys && FilledUpTo(start, lab.nodes, todo, before, Snapshot(cards))
      decreases todo
    {
      var nodeName :| nodeName in todo;
      ghost var mid, now := Snapshot(cards), lab.nodes;
      assert now[nodeName] == start[nodeName];
      ok := FillNode(lab, nodeName, WithTypes(start), cards);
      if !ok {
        AllLabJustifiedThen(WithTypes(start), before, mid, Snapshot(cards));
        return;
      }
      FilledUpToStep(start, now, todo, before, mid, nodeName, Snapshot(cards));
      todo := todo - {nodeName};
    }
    FilledUpToEnd(start, lab.nodes, before, Snapshot(cards));
    ok := true;
  }

  // ---- ports ----

  /** Fills the port of one connector; not ok is a panic. */
  method FillPort(nodes: Nodes, c: Connector) returns (ok: bool, c': Connector)
    ensures ok <==> !ConnectorPanics(nodes, c)
    ensures ok ==> PortFilled(nodes, c, c')
  {
    c' := c;
    var kind := NodeTypeOf(c.node);
    if !IsSRVM(kind) || c.port.Some? {
      return true, c;
    }
    if c.node !in nodes || GetSystem(nodes[c.node]) != Some(kind) || nodes[c.node][kind].chassis.None? {
      return false, c;
    }
    var choice := GetDefaultMDASlot(nodes[c.node][kind].chassis.value);
    if choice.Panic? {
      return false, c;
    }
    return true, c.(port := Some(choice.slot));
  }

  ghost predicate LinkPortsFilled(nodes: Nodes, cs: seq<Connector>, cs': seq<Connector>, n: nat) {
    |cs'| == |cs| && forall i | 0 <= i < |cs| :: if i < n then PortFilled(nodes, cs[i], cs'[i]) else cs'[i] == cs[i]
  }

  method FillLinkPorts(nodes: Nodes, cs: seq<Connector>) returns (ok: bool, cs': seq<Connector>)
    ensures ok <==> forall i | 0 <= i < |cs| :: !ConnectorPanics(nodes, cs[i])
    ensures ok ==> LinkPortsFilled(nodes, cs, cs', |cs|)
  {
    cs' := cs;
    for cid := 0 to |cs|
      invariant LinkPortsFilled(nodes, cs, cs', cid)
      invariant forall i | 0 <= i < cid :: !ConnectorPanics(nodes, cs[i])
    {
      var c;
      ok, c := FillPort(nodes, cs[cid]);
      if !ok {
        return;
      }
      cs' := cs'[cid := c];
    }
    ok := true;
  }

  ghost predicate PortsFilled(nodes: Nodes, links: map<string, seq<Connector>>, links': map<string, seq<Connector>>, todo: set<string>) {
    && links'.Keys == links.Keys
    && forall l | l in links ::
         if l in todo then links'[l] == links[l] else LinkPortsFilled(nodes, links[l], links'[l], |links[l]|)
  }

  /** The loop that fills the connectors' ports. */
  method FillPorts(lab: LabObject) returns (ok: bool)
    modifies lab`links
    ensures ok <==> !SomeConnectorPanics(lab.nodes, old(lab.links))
    ensures ok ==> PortsFilled(lab.nodes, old(lab.links), lab.links, {})
  {
    ghost var links := lab.links;
    var todo := lab.links.Keys;
    while todo != {}
      invariant todo <= links.Keys && PortsFilled(lab.nodes, links, lab.links, todo)
      invariant forall l, i | l in links && l !in todo && 0 <= i < |links[l]| :: !ConnectorPanics(lab.nodes, links[l][i])
      decreases todo
    {
      var linkName :| linkName in todo;
      var cs;
      ok, cs := FillLinkPorts(lab.nodes, lab.links[linkName]);
      if !ok {
        return;
      }
      lab.links := lab.links[linkName := cs];
      todo := todo - {linkName};
    }
    ok := true;
  }

  // ---- chassis addresses ----

  /** The chassis address of one node; not ok is a panic. */
  method FillChassisMac(lab: LabObject, name: string, i: nat) returns (ok: bool)
    requires name in lab.nodes
    modifies lab`nodes
    ensures ok <==> !MacPanics(name, old(lab.nodes)[name])
    ensures lab.nodes == old(lab.nodes)[name := if ok then WithMac(name, old(lab.nodes)[name], i) else old(lab.nodes)[name]]
  {
    var kind := NodeTypeOf(name);
    var one := lab.nodes[name];
    assert lab.nodes[name := one] == lab.nodes;
    if IsSRType(kind) {
      if GetSystem(one) != Some(kind) {
        return false;
      }
      if one[kind].chassis.Some? && one[kind].chassis.value.mac.None? {
        var chassis := one[kind].chassis.value.(mac := Some(Mac.Derived(Mac.ChassisBase, i)));
        lab.nodes := lab.nodes[name := one[kind := one[kind].(chassis := Some(chassis))]];
      }
    }
    ok := true;
  }

  lemma ReplacedStep(start: Nodes, now: Nodes, target: Nodes, todo: set<string>, n: string)
    requires Replaced(start, now, target, todo) && n in todo && n in start
    ensures now[n] == start[n] && Replaced(start, now[n := target[n]], target, todo - {n})
  {
  }

  lemma ReplacedAll(start: Nodes, now: Nodes, target: Nodes)
    requires Replaced(start, now, target, {})
    ensures now == target
  {
  }

  /** `todo` are the names from position i on. */
  ghost predicate Left(names: seq<string>, i: nat, todo: set<string>)
    requires i <= |names|
  {
    && |todo| == |names| - i
    && (forall j | i <= j < |names| :: names[j] in todo)
    && (forall j, k | 0 <= j < k < |names| :: names[j] != names[k])
  }

  lemma LeftStep(names: seq<string>, i: nat, todo: set<string>)
    requires i < |names| && Left(names, i, todo)
    ensures names[i] in todo && Left(names, i + 1, todo - {names[i]})
  {
  }

  lemma SortedLeft(keys: set<string>)
    ensures Left(Sorted(keys), 0, keys)
  {
    AscendingDistinct(Sorted(keys));
    forall j | 0 <= j < |Sorted(keys)|
      ensures Sorted(keys)[j] in keys
    {
      assert Sorted(keys)[j] in Elems(Sorted(keys));
    }
  }

  lemma {:induction false} IndexOfName(names: seq<string>, i: nat)
    requires i < |names| && forall j | 0 <= j < i :: names[j] != names[i]
    ensures IndexIn(names, names[i]) == i
  {
    if i > 0 {
      IndexOfName(names[1..], i - 1);
    }
  }

  lemma TargetMac(start: Nodes, names: seq<string>, i: nat)
    requires names == Sorted(start.Keys) && i < |names| && names[i] in start
    requires forall j, k | 0 <= j < k < |names| :: names[j] != names[k]
    ensures WithMacs(start)[names[i]] == WithMac(names[i], start[names[i]], i)
  {
    IndexOfName(names, i);
  }

  /** The last loop: routers without a chassis address get one derived from their place in the sorted node list. */
  method FillChassisMacs(lab: LabObject) returns (ok: bool)
    modifies lab`nodes
    ensures ok <==> !SomeMacPanics(old(lab.nodes))
    ensures ok ==> lab.nodes == WithMacs(old(lab.nodes))
  {
    ghost var start, target, todo := lab.nodes, WithMacs(lab.nodes), lab.nodes.Keys;
    var names := GetSortedKeySlice(lab.nodes.Keys);
    SortedLeft(start.Keys);
    for i := 0 to |names|
      invariant todo <= start.Keys && Left(names, i, todo) && Replaced(start, lab.nodes, target, todo)
      invariant forall n | n in start && n !in todo :: !MacPanics(n, start[n])
    {
      LeftStep(names, i, todo);
      ReplacedStep(start, lab.nodes, target, todo, names[i]);
      TargetMac(start, names, i);
      ok := FillChassisMac(lab, names[i], i);
      if !ok {
        return;
      }
      todo := todo - {names[i]};
    }
    assert todo == {};
    ReplacedAll(start, lab.nodes, target);
    ok := true;
  }
}

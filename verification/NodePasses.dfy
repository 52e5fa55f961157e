/** The passes of the admission webhook's Default that settle which nodes a lab has and what they are: in place, each in
    whatever order its map yields. Every pass is proved to compute a function of the lab. */
module NodePasses {
  import opened Wrappers
  import opened Names
  import opened Chassis
  import opened Cluster
  import opened LabSpec
  import Mac

  class LabObject {
    var nodes: Nodes
    var links: map<string, seq<Connector>>

    constructor (nodes: Nodes, links: map<string, seq<Connector>>)
      ensures this.nodes == nodes && this.links == links
    {
      this.nodes, this.links := nodes, links;
    }
  }

  // ---- connectors: missing nodes and derived addresses ----

  function NodesOf(cs: seq<Connector>): set<string> { set i | 0 <= i < |cs| :: cs[i].node }

  ghost function NodesOn(links: map<string, seq<Connector>>, some: set<string>): set<string> {
    set l, i | l in links && l in some && 0 <= i < |links[l]| :: links[l][i].node
  }

  function WithMacAt(c: Connector, offset: nat): Connector {
    c.(mac := SetDefault(c.mac, Some(Mac.Derived(Mac.Base, offset))))
  }

  /** The connectors of a link whose addresses are derived from the offsets that follow `start`. */
  function FillMacs(cs: seq<Connector>, start: nat): seq<Connector> {
    seq(|cs|, i requires 0 <= i < |cs| => WithMacAt(cs[i], start + i + 1))
  }

  /** Every link has a range of offsets of its own. */
  ghost predicate Apart(links: map<string, seq<Connector>>, starts: map<string, nat>) {
    && starts.Keys <= links.Keys
    && forall a, b | a in starts && b in starts && a != b ::
         starts[a] + |links[a]| <= starts[b] || starts[b] + |links[b]| <= starts[a]
  }

  lemma AddMissingTwice(nodes: Nodes, a: set<string>, b: set<string>)
    ensures AddMissing(AddMissing(nodes, a), b) == AddMissing(nodes, a + b)
  {
  }

  method AddNode(lab: LabObject, name: string)
    modifies lab`nodes
    ensures lab.nodes == AddMissing(old(lab.nodes), {name})
  {
    if name !in lab.nodes {
      lab.nodes := lab.nodes[name := map[]];
    }
    assert lab.nodes == AddMissing(old(lab.nodes), {name});
  }

  /** The first i connectors of a link have been handled. */
  ghost predicate LinkFilledTo(cs: seq<Connector>, start: nat, nodes: Nodes, now: seq<Connector>, nowNodes: Nodes, i: nat)
    requires i <= |cs|
  {
    && now == FillMacs(cs[..i], start) + cs[i..]
    && nowNodes == AddMissing(nodes, NodesOf(cs[..i]))
  }

  lemma FillMacsStep(cs: seq<Connector>, start: nat, i: nat)
    requires i < |cs|
    ensures var now := FillMacs(cs[..i], start) + cs[i..];
            |now| == |cs| && now[i] == cs[i]
            && now[i := WithMacAt(cs[i], start + i + 1)] == FillMacs(cs[..i + 1], start) + cs[i + 1..]
  {
  }

  lemma LinkFilledToStep(cs: seq<Connector>, start: nat, nodes: Nodes, now: seq<Connector>, nowNodes: Nodes, i: nat)
    requires i < |cs| && LinkFilledTo(cs, start, nodes, now, nowNodes, i)
    ensures |now| == |cs| && now[i] == cs[i]
    ensures LinkFilledTo(cs, start, nodes, now[i := WithMacAt(cs[i], start + i + 1)], AddMissing(nowNodes, {cs[i].node}), i + 1)
  {
    FillMacsStep(cs, start, i);
    AddMissingTwice(nodes, NodesOf(cs[..i]), {cs[i].node});
    OneMoreNode(cs, i);
  }

  lemma LinkFilledToEnds(cs: seq<Connector>, start: nat, nodes: Nodes)
    ensures LinkFilledTo(cs, start, nodes, cs, nodes, 0)
    ensures forall now, nowNodes | LinkFilledTo(cs, start, nodes, now, nowNodes, |cs|) ::
              now == FillMacs(cs, start) && nowNodes == AddMissing(nodes, NodesOf(cs))
  {
    assert cs[..|cs|] == cs;
    assert FillMacs(cs, start) + cs[|cs|..] == FillMacs(cs, start);
    assert FillMacs(cs[..0], start) + cs[0..] == cs;
  }

  method FillLink(lab: LabObject, linkName: string, start: nat)
    requires linkName in lab.links
    modifies lab
    ensures lab.links == old(lab.links)[linkName := FillMacs(old(lab.links)[linkName], start)]
    ensures lab.nodes == AddMissing(old(lab.nodes), NodesOf(old(lab.links)[linkName]))
  {
    ghost var links, nodes := lab.links, lab.nodes;
    var connectors := lab.links[linkName];
    LinkFilledToEnds(connectors, start, nodes);
    assert links == links[linkName := connectors];
    for i := 0 to |connectors|
      invariant linkName in lab.links && lab.links == links[linkName := lab.links[linkName]]
      invariant LinkFilledTo(connectors, start, nodes, lab.links[linkName], lab.nodes, i)
    {
      LinkFilledToStep(connectors, start, nodes, lab.links[linkName], lab.nodes, i);
      AddNode(lab, connectors[i].node);
      PutConnector(lab, linkName, i, WithMacAt(connectors[i], start + i + 1), links);
    }
  }

  method PutConnector(lab: LabObject, linkName: string, i: nat, c: Connector, ghost others: map<string, seq<Connector>>)
    requires linkName in lab.links && i < |lab.links[linkName]|
    requires lab.links == others[linkName := lab.links[linkName]]
    modifies lab`links
    ensures linkName in lab.links && lab.links[linkName] == old(lab.links)[linkName][i := c]
    ensures lab.links == others[linkName := lab.links[linkName]]
  {
    lab.links := lab.links[linkName := lab.links[linkName][i := c]];
  }

  lemma OneMoreNode(cs: seq<Connector>, i: nat)
    requires i < |cs|
    ensures NodesOf(cs[..i + 1]) == NodesOf(cs[..i]) + {cs[i].node}
  {
    assert cs[..i + 1] == cs[..i] + [cs[i]];
    forall j | 0 <= j < i
      ensures cs[..i][j].node in NodesOf(cs[..i + 1])
    {
      assert cs[..i + 1][j] == cs[..i][j];
    }
    assert cs[..i + 1][i] == cs[i];
  }

  /** The links not in `todo` have been filled, each from its own start. */
  ghost predicate MacsFilled(links: map<string, seq<Connector>>, now: map<string, seq<Connector>>, starts: map<string, nat>,
                             todo: set<string>) {
    && now.Keys == links.Keys && starts.Keys == links.Keys - todo
    && forall l | l in links :: now[l] == if l in todo then links[l] else FillMacs(links[l], starts[l])
  }

  lemma MacsFilledStep(links: map<string, seq<Connector>>, now: map<string, seq<Connector>>, starts: map<string, nat>,
                       todo: set<string>, l: string, start: nat)
    requires MacsFilled(links, now, starts, todo) && l in todo && l in links
    ensures now[l] == links[l]
    ensures MacsFilled(links, now[l := FillMacs(links[l], start)], starts[l := start], todo - {l})
  {
  }

  ghost predicate Below(links: map<string, seq<Connector>>, starts: map<string, nat>, limit: nat)
    requires starts.Keys <= links.Keys
  {
    forall l | l in starts :: starts[l] + |links[l]| <= limit
  }

  lemma ApartStep(links: map<string, seq<Connector>>, starts: map<string, nat>, l: string, start: nat)
    requires Apart(links, starts) && Below(links, starts, start) && l in links && l !in starts
    ensures Apart(links, starts[l := start]) && Below(links, starts[l := start], start + |links[l]|)
  {
  }

  /** The connectors of some links, each as link and position. */
  ghost function ConnectorsOn(links: map<string, seq<Connector>>, some: set<string>): set<(string, int)> {
    set l, i | l in links && l in some && 0 <= i < |links[l]| :: (l, i)
  }

  ghost function Connectors(links: map<string, seq<Connector>>): set<(string, int)> { ConnectorsOn(links, links.Keys) }

  ghost function ConnectorsOf(l: string, n: nat): set<(string, int)> { set i | 0 <= i < n :: (l, i) }

  lemma {:induction false} CountConnectorsOf(l: string, n: nat)
    ensures |ConnectorsOf(l, n)| == n
  {
    if n > 0 {
      CountConnectorsOf(l, n - 1);
      assert ConnectorsOf(l, n) == ConnectorsOf(l, n - 1) + {(l, n - 1)};
    }
  }

  lemma OneMoreCounted(links: map<string, seq<Connector>>, some: set<string>, l: string)
    requires l in links && l !in some
    ensures |ConnectorsOn(links, some + {l})| == |ConnectorsOn(links, some)| + |links[l]|
  {
    CountConnectorsOf(l, |links[l]|);
    assert ConnectorsOn(links, some + {l}) == ConnectorsOn(links, some) + ConnectorsOf(l, |links[l]|);
    assert ConnectorsOn(links, some) !! ConnectorsOf(l, |links[l]|);
  }

  /** The links have ranges of offsets of their own, none beyond the number of connectors. */
  ghost predicate Numbered(links: map<string, seq<Connector>>, starts: map<string, nat>) {
    starts.Keys == links.Keys && Apart(links, starts) && Below(links, starts, |Connectors(links)|)
  }

  ghost predicate FilledTo(links: map<string, seq<Connector>>, nodes: Nodes, nowLinks: map<string, seq<Connector>>, nowNodes: Nodes,
                           starts: map<string, nat>, todo: set<string>, offset: nat) {
    && MacsFilled(links, nowLinks, starts, todo) && Apart(links, starts) && Below(links, starts, offset)
    && nowNodes == AddMissing(nodes, NodesOn(links, links.Keys - todo))
    && offset == |ConnectorsOn(links, links.Keys - todo)|
  }

  lemma FilledToStep(links: map<string, seq<Connector>>, nodes: Nodes, nowLinks: map<string, seq<Connector>>, nowNodes: Nodes,
                     starts: map<string, nat>, todo: set<string>, offset: nat, l: string)
    requires FilledTo(links, nodes, nowLinks, nowNodes, starts, todo, offset) && l in todo && l in links
    ensures nowLinks[l] == links[l]
    ensures FilledTo(links, nodes, nowLinks[l := FillMacs(links[l], offset)], AddMissing(nowNodes, NodesOf(links[l])),
                     starts[l := offset], todo - {l}, offset + |links[l]|)
  {
    MacsFilledStep(links, nowLinks, starts, todo, l, offset);
    ApartStep(links, starts, l, offset);
    DoneStep(links, nodes, todo, l);
  }

  lemma DoneStep(links: map<string, seq<Connector>>, nodes: Nodes, todo: set<string>, l: string)
    requires l in todo && l in links
    ensures AddMissing(AddMissing(nodes, NodesOn(links, links.Keys - todo)), NodesOf(links[l])) ==
            AddMissing(nodes, NodesOn(links, links.Keys - (todo - {l})))
    ensures |ConnectorsOn(links, links.Keys - (todo - {l}))| == |ConnectorsOn(links, links.Keys - todo)| + |links[l]|
  {
    var done := links.Keys - todo;
    assert links.Keys - (todo - {l}) == done + {l};
    AddMissingTwice(nodes, NodesOn(links, done), NodesOf(links[l]));
    OneMoreLink(links, done, l);
    OneMoreCounted(links, done, l);
  }

  lemma FilledToStart(links: map<string, seq<Connector>>, nodes: Nodes)
    ensures FilledTo(links, nodes, links, nodes, map[], links.Keys, 0)
  {
    assert NodesOn(links, links.Keys - links.Keys) == {};
    assert ConnectorsOn(links, links.Keys - links.Keys) == {};
  }

  /** The first loop of Default. `starts` are the offsets at which the links were reached. */
  method FillLinks(lab: LabObject) returns (ghost starts: map<string, nat>)
    modifies lab
    ensures MacsFilled(old(lab.links), lab.links, starts, {}) && Numbered(old(lab.links), starts)
    ensures lab.nodes == AddMissing(old(lab.nodes), ConnectorNodes(old(lab.links)))
  {
    ghost var nodes, links := lab.nodes, lab.links;
    var todo := lab.links.Keys;
    var macOffset: nat := 0;
    starts := map[];
    FilledToStart(links, nodes);
    while todo != {}
      invariant todo <= links.Keys && lab.links.Keys == links.Keys
      invariant FilledTo(links, nodes, lab.links, lab.nodes, starts, todo, macOffset)
      decreases todo
    {
      var linkName :| linkName in todo;
      FilledToStep(links, nodes, lab.links, lab.nodes, starts, todo, macOffset, linkName);
      starts := starts[linkName := macOffset];
      FillLink(lab, linkName, macOffset);
      macOffset := macOffset + |lab.links[linkName]|;
      todo := todo - {linkName};
    }
    AllLinks(links);
    assert links.Keys - {} == links.Keys;
  }

  lemma AllLinks(links: map<string, seq<Connector>>)
    ensures NodesOn(links, links.Keys - {}) == ConnectorNodes(links)
  {
  }

  lemma OneMoreLink(links: map<string, seq<Connector>>, some: set<string>, l: string)
    requires l in links
    ensures NodesOn(links, some + {l}) == NodesOn(links, some) + NodesOf(links[l])
  {
  }

  /** The addresses filled in by one Default are all different, in whatever order the links were reached. */
  lemma FilledMacsDiffer(links: map<string, seq<Connector>>, starts: map<string, nat>, a: string, i: nat, b: string, j: nat)
    requires Numbered(links, starts) && |Connectors(links)| < Mac.Two48
    requires a in links && b in links && i < |links[a]| && j < |links[b]| && (a != b || i != j)
    requires links[a][i].mac.None? && links[b][j].mac.None?
    ensures FillMacs(links[a], starts[a])[i].mac.Some? && FillMacs(links[b], starts[b])[j].mac.Some?
    ensures FillMacs(links[a], starts[a])[i].mac != FillMacs(links[b], starts[b])[j].mac
  {
    Mac.DerivedDiffer(Mac.Base, starts[a] + i + 1, starts[b] + j + 1);
    FilledMac(links[a], starts[a], i);
    FilledMac(links[b], starts[b], j);
  }

  lemma FilledMac(cs: seq<Connector>, start: nat, i: nat)
    requires i < |cs| && cs[i].mac.None?
    ensures FillMacs(cs, start)[i].mac == Some(Mac.Derived(Mac.Base, start + i + 1))
  {
  }

  // ---- control cards ----

  predicate HasControlCard(nodes: Nodes, name: string) { CpmName(name).Some? ==> CpmName(name).value in nodes }

  /** Adds the control card of one node; `added` if it was missing. */
  method AddControlCard(lab: LabObject, nodeName: string) returns (added: Option<string>)
    modifies lab`nodes
    ensures added == if HasControlCard(old(lab.nodes), nodeName) then None else CpmName(nodeName)
    ensures lab.nodes == if added.Some? then old(lab.nodes)[added.value := map[]] else old(lab.nodes)
    ensures HasControlCard(lab.nodes, nodeName)
    ensures added.Some? ==> HasControlCard(lab.nodes, added.value)
  {
    added := None;
    var cpm := CpmName(nodeName);
    if cpm.Some? && cpm.value !in lab.nodes {
      CpmNameIsFixed(nodeName);
      lab.nodes := lab.nodes[cpm.value := map[]];
      added := cpm;
    }
  }

  /** The nodes at some point of the loop below: control cards of `start` have been added. */
  ghost predicate Growing(start: Nodes, nodes: Nodes) {
    && start.Keys <= nodes.Keys <= start.Keys + CpmNames(start.Keys)
    && (forall n | n in nodes :: nodes[n] == if n in start then start[n] else map[])
  }

  lemma GrownIsAdded(start: Nodes, nodes: Nodes)
    requires Growing(start, nodes) && forall n | n in start :: HasControlCard(nodes, n)
    ensures nodes == AddMissing(start, CpmNames(start.Keys))
  {
    forall c | c in CpmNames(start.Keys)
      ensures c in nodes
    {
      var n :| n in start && CpmName(n) == Some(c);
      assert HasControlCard(nodes, n);
    }
  }

  /** How far the loop below has come. */
  ghost predicate CardsAddedTo(start: Nodes, now: Nodes, todo: set<string>) {
    && Growing(start, now)
    && (forall n | n in start && n !in todo :: HasControlCard(now, n))
    && (forall n | n in todo && n !in start :: HasControlCard(now, n))
  }

  lemma CardsAddedToStep(start: Nodes, before: Nodes, now: Nodes, todo: set<string>, n: string, added: Option<string>)
    requires CardsAddedTo(start, before, todo) && n in todo
    requires added == if HasControlCard(before, n) then None else CpmName(n)
    requires now == if added.Some? then before[added.value := map[]] else before
    requires HasControlCard(now, n) && (added.Some? ==> HasControlCard(now, added.value))
    ensures CardsAddedTo(start, now, todo - {n})
    ensures added.Some? ==> CardsAddedTo(start, now, todo - {n} + {added.value})
    ensures added.Some? ==> CpmNames(start.Keys) - now.Keys < CpmNames(start.Keys) - before.Keys
  {
    if added.Some? {
      assert n in start;
      assert added.value in CpmNames(start.Keys) - before.Keys;
    }
  }

  /** The second loop of Default adds keys to the map it ranges over: an added key may or may not be visited. */
  method AddControlCards(lab: LabObject)
    modifies lab`nodes
    ensures lab.nodes == AddMissing(old(lab.nodes), CpmNames(old(lab.nodes).Keys))
  {
    ghost var start := lab.nodes;
    var todo := lab.nodes.Keys;
    while todo != {}
      invariant CardsAddedTo(start, lab.nodes, todo)
      decreases CpmNames(start.Keys) - lab.nodes.Keys, todo
    {
      var nodeName :| nodeName in todo;
      ghost var before := lab.nodes;
      var added := AddControlCard(lab, nodeName);
      CardsAddedToStep(start, before, lab.nodes, todo, nodeName, added);
      todo := todo - {nodeName};
      if added.Some? {
        var visited: bool := *;
        if visited {
          todo := todo + {added.value};
        }
      }
    }
    GrownIsAdded(start, lab.nodes);
  }

  // ---- system types and the configuration's defaults ----

  /** The third loop: nodes without a system get one from their name; not ok is the error for an unknown name. */
  method AssignTypes(lab: LabObject) returns (ok: bool)
    modifies lab`nodes
    ensures ok <==> !SomeUntyped(old(lab.nodes))
    ensures ok ==> lab.nodes == map n | n in old(lab.nodes) :: Typed(n, old(lab.nodes)[n])
  {
    ghost var start := lab.nodes;
    var todo := lab.nodes.Keys;
    while todo != {}
      invariant todo <= lab.nodes.Keys == start.Keys
      invariant forall n | n in start && n !in todo :: !Untyped(n, start[n])
      invariant forall n | n in start :: lab.nodes[n] == if n in todo then start[n] else Typed(n, start[n])
      decreases todo
    {
      var nodeName :| nodeName in todo;
      if GetSystem(lab.nodes[nodeName]).None? {
        var kind := NodeTypeOf(nodeName);
        if kind !in Kinds {
          assert Untyped(nodeName, start[nodeName]);
          return false;
        }
        lab.nodes := lab.nodes[nodeName := lab.nodes[nodeName][kind := NewSystem]];
      }
      todo := todo - {nodeName};
    }
    ok := true;
  }

  /** LoadDef: not ok is the error for a node without a system. */
  method LoadDef(lab: LabObject, defaults: OneOf) returns (ok: bool)
    modifies lab`nodes
    ensures ok <==> forall n | n in old(lab.nodes) :: GetSystem(old(lab.nodes)[n]).Some?
    ensures ok ==> lab.nodes == map n | n in old(lab.nodes) :: Loaded(old(lab.nodes)[n], defaults)
  {
    ghost var start := lab.nodes;
    var todo := lab.nodes.Keys;
    while todo != {}
      invariant todo <= lab.nodes.Keys == start.Keys
      invariant forall n | n in start && n !in todo :: GetSystem(start[n]).Some?
      invariant forall n | n in start :: lab.nodes[n] == if n in todo then start[n] else Loaded(start[n], defaults)
      decreases todo
    {
      var nodeName :| nodeName in todo;
      var one := lab.nodes[nodeName];
      var kind := GetSystem(one);
      if kind.None? {
        return false;
      }
      if kind.value in defaults {
        lab.nodes := lab.nodes[nodeName := one[kind.value := FillSystem(one[kind.value], defaults[kind.value])]];
      }
      todo := todo - {nodeName};
    }
    ok := true;
  }
}

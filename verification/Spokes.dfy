/** The maps a reconcile keeps about a lab's links: which spokes a node has on which link, which connector and
    which link a spoke stands for, and the independent node-to-links index of ParseLab. */
module Spokes {
  import opened Names
  import opened Cluster

  datatype Maps = Maps(
    spokes: map<string, map<string, seq<string>>>,
    connectors: map<string, Connector>,
    links: map<string, string>)

  const NoMaps := Maps(map[], map[], map[])

  // ---- reference: the spokes of one node on one link, in connector order ----

  function NodeSpokes(node: string, vni: nat, cs: seq<Connector>): seq<string> {
    if cs == [] then []
    else
      var n := |cs| - 1;
      NodeSpokes(node, vni, cs[..n]) + if cs[n].node == node then [SpokeName(vni, n)] else []
  }

  function SpokesAt(m: map<string, map<string, seq<string>>>, node: string, link: string): seq<string> {
    if node in m && link in m[node] then m[node][link] else []
  }

  // ---- what EnsureLinks does to the maps ----

  function AddConnector(m: Maps, link: string, vni: nat, index: nat, c: Connector): Maps {
    var spoke := SpokeName(vni, index);
    var ofNode := if c.node in m.spokes then m.spokes[c.node] else map[];
    var ofLink := if link in ofNode then ofNode[link] else [];
    Maps(m.spokes[c.node := ofNode[link := ofLink + [spoke]]],
         m.connectors[spoke := c],
         m.links[spoke := link])
  }

  function AddConnectors(m: Maps, link: string, vni: nat, cs: seq<Connector>): Maps {
    if cs == [] then m
    else var n := |cs| - 1; AddConnector(AddConnectors(m, link, vni, cs[..n]), link, vni, n, cs[n])
  }

  lemma AddConnectorsStep(m: Maps, link: string, vni: nat, cs: seq<Connector>, i: nat)
    requires i < |cs|
    ensures AddConnectors(m, link, vni, cs[..i + 1]) == AddConnector(AddConnectors(m, link, vni, cs[..i]), link, vni, i, cs[i])
  {
    assert cs[..i + 1][..i] == cs[..i];
  }

  lemma SpokesStep(base: seq<string>, vni: nat, i: nat)
    ensures base + Spokes(vni, i + 1) == base + Spokes(vni, i) + [SpokeName(vni, i)]
  {
  }

  /** The maps after the first |used| links of `names`. */
  function AddLinks(links: map<string, seq<Connector>>, names: seq<string>, used: seq<nat>): Maps
    requires |used| <= |names| && forall n | n in names :: n in links
  {
    if used == [] then NoMaps
    else
      var j := |used| - 1;
      AddConnectors(AddLinks(links, names, used[..j]), names[j], used[j], links[names[j]])
  }

  lemma AddLinksStep(links: map<string, seq<Connector>>, names: seq<string>, used: seq<nat>, vni: nat)
    requires |used| < |names| && forall n | n in names :: n in links
    ensures AddLinks(links, names, used + [vni]) ==
            AddConnectors(AddLinks(links, names, used), names[|used|], vni, links[names[|used|]])
  {
    assert (used + [vni])[..|used|] == used;
  }

  // ---- the maps are what the reference says ----

  lemma {:induction false} AddConnectorsSpokes(m: Maps, link: string, vni: nat, cs: seq<Connector>, node: string, other: string)
    ensures SpokesAt(AddConnectors(m, link, vni, cs).spokes, node, other) ==
            SpokesAt(m.spokes, node, other) + if other == link then NodeSpokes(node, vni, cs) else []
  {
    if cs != [] {
      AddConnectorsSpokes(m, link, vni, cs[..|cs| - 1], node, other);
    }
  }

  predicate Leads(m: Maps, spoke: string, c: Connector, link: string) {
    spoke in m.connectors && m.connectors[spoke] == c && spoke in m.links && m.links[spoke] == link
  }

  lemma {:induction false} AddedConnectorLeads(m: Maps, link: string, vni: nat, cs: seq<Connector>, i: nat)
    requires i < |cs|
    ensures Leads(AddConnectors(m, link, vni, cs), SpokeName(vni, i), cs[i], link)
  {
    var n: nat := |cs| - 1;
    if i < n {
      AddedConnectorLeads(m, link, vni, cs[..n], i);
      if SpokeName(vni, i) == SpokeName(vni, n) {
        SpokeNameInjective(vni, i, vni, n);
      }
    }
  }

  lemma {:induction false} OtherConnectorStays(m: Maps, link: string, vni: nat, cs: seq<Connector>,
                                               spoke: string, c: Connector, other: string)
    requires Leads(m, spoke, c, other) && forall i: nat | i < |cs| :: spoke != SpokeName(vni, i)
    ensures Leads(AddConnectors(m, link, vni, cs), spoke, c, other)
  {
    if cs != [] {
      OtherConnectorStays(m, link, vni, cs[..|cs| - 1], spoke, c, other);
    }
  }

  ghost predicate Distinct<T>(xs: seq<T>) { forall i, j | 0 <= i < j < |xs| :: xs[i] != xs[j] }

  /** A node's spokes on a link are exactly its connectors on it, in order. */
  lemma {:induction false} SpokesAreNodeSpokes(links: map<string, seq<Connector>>, names: seq<string>, used: seq<nat>,
                                               node: string, j: nat)
    requires |used| <= |names| && Distinct(names) && (forall n | n in names :: n in links) && j < |names|
    ensures SpokesAt(AddLinks(links, names, used).spokes, node, names[j]) ==
            if j < |used| then NodeSpokes(node, used[j], links[names[j]]) else []
  {
    if used != [] {
      var n := |used| - 1;
      var before := AddLinks(links, names, used[..n]);
      SpokesAreNodeSpokes(links, names, used[..n], node, j);
      AddConnectorsSpokes(before, names[n], used[n], links[names[n]], node, names[j]);
      assert names[j] == names[n] <==> j == n;
      assert SpokesAt(before.spokes, node, names[j]) == if j < n then NodeSpokes(node, used[j], links[names[j]]) else [];
    }
  }

  /** With different VNIs no entry is overwritten: every spoke name leads back to its own connector and link. */
  lemma {:induction false} SpokeLeadsBack(links: map<string, seq<Connector>>, names: seq<string>, used: seq<nat>, j: nat, i: nat)
    requires |used| <= |names| && (forall n | n in names :: n in links)
    requires Distinct(used) && j < |used| && i < |links[names[j]]|
    ensures Leads(AddLinks(links, names, used), SpokeName(used[j], i), links[names[j]][i], names[j])
  {
    var n := |used| - 1;
    var before := AddLinks(links, names, used[..n]);
    var spoke := SpokeName(used[j], i);
    if j < n {
      SpokeLeadsBack(links, names, used[..n], j, i);
      forall k: nat | k < |links[names[n]]|
        ensures spoke != SpokeName(used[n], k)
      {
        if spoke == SpokeName(used[n], k) {
          SpokeNameInjective(used[j], i, used[n], k);
        }
      }
      OtherConnectorStays(before, names[n], used[n], links[names[n]], spoke, links[names[j]][i], names[j]);
    } else {
      AddedConnectorLeads(before, names[n], used[n], links[names[n]], i);
    }
  }

  // ---- the node-to-links index of ParseLab ----

  function CountNode(node: string, cs: seq<Connector>): nat {
    if cs == [] then 0
    else CountNode(node, cs[..|cs| - 1]) + if cs[|cs| - 1].node == node then 1 else 0
  }

  function LinksAt(m: map<string, seq<string>>, node: string): seq<string> {
    if node in m then m[node] else []
  }

  /** How often the link stands in the node's list. */
  function Times(m: map<string, seq<string>>, node: string, link: string): nat {
    multiset(LinksAt(m, node))[link]
  }

  lemma AppendCounts(m: map<string, seq<string>>, node: string, link: string)
    ensures var r := m[node := LinksAt(m, node) + [link]];
            forall n, l :: Times(r, n, l) == Times(m, n, l) + if n == node && l == link then 1 else 0
  {
    var r := m[node := LinksAt(m, node) + [link]];
    assert LinksAt(r, node) == LinksAt(m, node) + [link];
    assert forall n | n != node :: LinksAt(r, n) == LinksAt(m, n);
  }

  lemma CountNodeStep(node: string, cs: seq<Connector>, i: nat)
    requires i < |cs|
    ensures CountNode(node, cs[..i + 1]) == CountNode(node, cs[..i]) + if cs[i].node == node then 1 else 0
  {
    assert cs[..i + 1][..i] == cs[..i];
  }

  /** The inner loop of ParseLab: one link. */
  method IndexLink(m: map<string, seq<string>>, linkName: string, cs: seq<Connector>) returns (r: map<string, seq<string>>)
    ensures forall n, l :: Times(r, n, l) == Times(m, n, l) + if l == linkName then CountNode(n, cs) else 0
  {
    r := m;
    assert forall n :: CountNode(n, cs[..0]) == 0;
    for i := 0 to |cs|
      invariant forall n, l :: Times(r, n, l) == Times(m, n, l) + if l == linkName then CountNode(n, cs[..i]) else 0
    {
      var node := cs[i].node;
      AppendCounts(r, node, linkName);
      forall n {
        CountNodeStep(n, cs, i);
      }
      if node in r {
        r := r[node := r[node] + [linkName]];
      } else {
        r := r[node := [] + [linkName]];
      }
    }
    assert cs[..|cs|] == cs;
  }

  /** ParseLab walks the links in whatever order the map yields them; only the order of a node's list depends on it. */
  method ParseLab(links: map<string, seq<Connector>>) returns (connectorMap: map<string, seq<string>>)
    ensures forall n, l :: Times(connectorMap, n, l) == if l in links then CountNode(n, links[l]) else 0
  {
    connectorMap := map[];
    var todo := links.Keys;
    while todo != {}
      invariant todo <= links.Keys
      invariant forall n, l :: Times(connectorMap, n, l) == if l in links && l !in todo then CountNode(n, links[l]) else 0
      decreases todo
    {
      var linkName :| linkName in todo;
      connectorMap := IndexLink(connectorMap, linkName, links[linkName]);
      todo := todo - {linkName};
    }
  }

  lemma {:induction false} NodeSpokesCount(node: string, vni: nat, cs: seq<Connector>)
    ensures |NodeSpokes(node, vni, cs)| == CountNode(node, cs)
  {
    if cs != [] {
      NodeSpokesCount(node, vni, cs[..|cs| - 1]);
    }
  }

  /** The two indexes agree: a link stands in a node's list as often as the node has spokes on it. */
  lemma IndexesAgree(links: map<string, seq<Connector>>, names: seq<string>, used: seq<nat>,
                     connectorMap: map<string, seq<string>>, node: string, j: nat)
    requires |used| == |names| && Distinct(names) && (forall n | n in names :: n in links) && j < |names|
    requires forall n, l :: Times(connectorMap, n, l) == if l in links then CountNode(n, links[l]) else 0
    ensures Times(connectorMap, node, names[j]) == |SpokesAt(AddLinks(links, names, used).spokes, node, names[j])|
  {
    SpokesAreNodeSpokes(links, names, used, node, j);
    NodeSpokesCount(node, used[j], links[names[j]]);
  }
}

/** From the maps of a reconcile to the interfaces of virtual machines: every connector of a router node is
    attached to exactly one card's machine. */
module Wiring {
  import opened Wrappers
  import opened Text
  import opened Names
  import opened Cluster
  import opened Spokes

  /** An interface of a virtual machine: the spoke, and the LAN whose attachment definition it uses. */
  datatype Attachment = Attachment(spoke: string, lan: string)

  // ---- what getVMI does, in terms of the maps ----

  /** getVMI can look up the connector of the spoke, and that connector has a port. */
  predicate HasPort(m: Maps, spoke: string) {
    spoke in m.connectors && m.connectors[spoke].port.Some?
  }

  function LinkOf(m: Maps, spoke: string): string { if spoke in m.links then m.links[spoke] else "" }

  function CardSpokes(m: Maps, lab: string, slot: string, spokes: seq<string>): seq<Attachment>
    requires forall s | s in spokes :: HasPort(m, s)
  {
    if spokes == [] then []
    else
      var n := |spokes| - 1;
      assert HasPort(m, spokes[n]);
      CardSpokes(m, lab, slot, spokes[..n])
      + if m.connectors[spokes[n]].port.value == slot then [Attachment(spokes[n], LanName(lab, LinkOf(m, spokes[n])))] else []
  }

  ghost predicate AllHavePorts(m: Maps, node: string, links: seq<string>) {
    forall l, s | l in links && s in SpokesAt(m.spokes, node, l) :: HasPort(m, s)
  }

  ghost function CardLinks(m: Maps, lab: string, node: string, slot: string, links: seq<string>): seq<Attachment>
    requires AllHavePorts(m, node, links)
  {
    if links == [] then []
    else
      var n := |links| - 1;
      CardLinks(m, lab, node, slot, links[..n]) + CardSpokes(m, lab, slot, SpokesAt(m.spokes, node, links[n]))
  }

  /** The links the maps know for a node. */
  function LinksOf(m: Maps, node: string): set<string> {
    if node in m.spokes then m.spokes[node].Keys else {}
  }

  method AddSpokes(m: Maps, lab: string, slot: string, spokes: seq<string>, interfaces: seq<Attachment>)
    returns (r: Option<seq<Attachment>>)
    ensures r.Some? <==> forall s | s in spokes :: HasPort(m, s)
    ensures r.Some? ==> r.value == interfaces + CardSpokes(m, lab, slot, spokes)
  {
    var list := interfaces;
    for i := 0 to |spokes|
      invariant forall s | s in spokes[..i] :: HasPort(m, s)
      invariant list == interfaces + CardSpokes(m, lab, slot, spokes[..i])
    {
      var spoke := spokes[i];
      assert spokes[..i + 1][..i] == spokes[..i] && spoke in spokes;
      if !HasPort(m, spoke) {
        return None;
      }
      if m.connectors[spoke].port.value != slot {
        continue;
      }
      list := list + [Attachment(spoke, LanName(lab, LinkOf(m, spoke)))];
    }
    assert spokes[..|spokes|] == spokes;
    return Some(list);
  }

  /** The port-link loops of getVMI for one card; None when a connector has no port, where the source
      dereferences a nil pointer. */
  method PortLinks(m: Maps, lab: string, node: string, slot: string) returns (interfaces: Option<seq<Attachment>>)
    ensures interfaces.Some? <==> AllHavePorts(m, node, Sorted(LinksOf(m, node)))
    ensures interfaces.Some? ==> interfaces.value == CardLinks(m, lab, node, slot, Sorted(LinksOf(m, node)))
  {
    var links := GetSortedKeySlice(LinksOf(m, node));
    forall l | l in links
      ensures node in m.spokes && l in m.spokes[node]
    {
      assert l in Elems(links);
    }
    interfaces := AddLinkInterfaces(m, lab, node, slot, links);
  }

  method AddLinkInterfaces(m: Maps, lab: string, node: string, slot: string, links: seq<string>) returns (r: Option<seq<Attachment>>)
    requires forall l | l in links :: node in m.spokes && l in m.spokes[node]
    ensures r.Some? <==> AllHavePorts(m, node, links)
    ensures r.Some? ==> r.value == CardLinks(m, lab, node, slot, links)
  {
    var list: seq<Attachment> := [];
    for i := 0 to |links|
      invariant AllHavePorts(m, node, links[..i])
      invariant list == CardLinks(m, lab, node, slot, links[..i])
    {
      assert links[i] in links;
      var next := AddSpokes(m, lab, slot, m.spokes[node][links[i]], list);
      if next.None? {
        NotAllHavePorts(m, node, links, i);
        return None;
      }
      CardLinksStep(m, lab, node, slot, links, i);
      list := next.value;
    }
    assert links[..|links|] == links;
    return Some(list);
  }

  lemma NotAllHavePorts(m: Maps, node: string, links: seq<string>, i: nat)
    requires i < |links| && exists s :: s in SpokesAt(m.spokes, node, links[i]) && !HasPort(m, s)
    ensures !AllHavePorts(m, node, links)
  {
    assert links[i] in links;
  }

  lemma CardLinksStep(m: Maps, lab: string, node: string, slot: string, links: seq<string>, i: nat)
    requires i < |links| && AllHavePorts(m, node, links[..i])
    requires forall s | s in SpokesAt(m.spokes, node, links[i]) :: HasPort(m, s)
    ensures AllHavePorts(m, node, links[..i + 1])
    ensures CardLinks(m, lab, node, slot, links[..i + 1]) ==
            CardLinks(m, lab, node, slot, links[..i]) + CardSpokes(m, lab, slot, SpokesAt(m.spokes, node, links[i]))
  {
    assert links[..i + 1] == links[..i] + [links[i]];
    assert links[..i + 1][..i] == links[..i];
  }

  // ---- reference: straight from the lab's links ----

  /** Connector number `connector` of link number `link`, in sorted order. */
  datatype End = End(link: nat, connector: nat)

  predicate Plugged(c: Connector, node: string, slot: string) { c.node == node && c.port == Some(slot) }

  /** The connectors of one link that are plugged into a card, in connector order. */
  function LinkEnds(j: nat, cs: seq<Connector>, node: string, slot: string): (r: seq<End>)
    ensures forall t | 0 <= t < |r| :: r[t].link == j && r[t].connector < |cs|
  {
    if cs == [] then []
    else
      var n := |cs| - 1;
      LinkEnds(j, cs[..n], node, slot) + if Plugged(cs[n], node, slot) then [End(j, n)] else []
  }

  ghost predicate AreLinks(links: map<string, seq<Connector>>, names: seq<string>) { forall n | n in names :: n in links }

  /** The connectors of the first k links that are plugged into a card: link by link, connector by connector. */
  ghost function CardEnds(links: map<string, seq<Connector>>, names: seq<string>, node: string, slot: string, k: nat): (r: seq<End>)
    requires AreLinks(links, names) && k <= |names|
    ensures forall t | 0 <= t < |r| :: r[t].link < k && r[t].connector < |links[names[r[t].link]]|
  {
    if k == 0 then []
    else
      CardEnds(links, names, node, slot, k - 1) + LinkEnds(k - 1, links[names[k - 1]], node, slot)
  }

  /** What a connector is attached as. */
  function AttachmentOf(lab: string, names: seq<string>, used: seq<nat>, e: End): Attachment
    requires e.link < |names| == |used|
  {
    Attachment(SpokeName(used[e.link], e.connector), LanName(lab, names[e.link]))
  }

  predicate InRange(ends: seq<End>, n: nat) { forall t | 0 <= t < |ends| :: ends[t].link < n }

  function Named(lab: string, names: seq<string>, used: seq<nat>, ends: seq<End>): seq<Attachment>
    requires |names| == |used| && InRange(ends, |names|)
  {
    if ends == [] then []
    else Named(lab, names, used, ends[..|ends| - 1]) + [AttachmentOf(lab, names, used, ends[|ends| - 1])]
  }

  lemma {:induction false} NamedConcat(lab: string, names: seq<string>, used: seq<nat>, a: seq<End>, b: seq<End>)
    requires |names| == |used| && InRange(a, |names|) && InRange(b, |names|)
    ensures InRange(a + b, |names|) && Named(lab, names, used, a + b) == Named(lab, names, used, a) + Named(lab, names, used, b)
  {
    if b == [] {
      assert a + b == a;
    } else {
      var n := |b| - 1;
      assert (a + b)[..|a + b| - 1] == a + b[..n];
      NamedConcat(lab, names, used, a, b[..n]);
    }
  }

  // ---- the loops compute the reference ----

  ghost predicate PortsSet(links: map<string, seq<Connector>>, node: string) {
    forall l, i: nat | l in links && i < |links[l]| && links[l][i].node == node :: links[l][i].port.Some?
  }

  /** The maps lead back from the spokes of a link. */
  ghost predicate LeadBack(m: Maps, link: string, vni: nat, cs: seq<Connector>) {
    forall i: nat | i < |cs| :: Leads(m, SpokeName(vni, i), cs[i], link)
  }

  lemma {:induction false} LinkLoop(m: Maps, lab: string, names: seq<string>, used: seq<nat>, j: nat, cs: seq<Connector>,
                                    node: string, slot: string)
    requires j < |names| == |used| && LeadBack(m, names[j], used[j], cs)
    requires forall i: nat | i < |cs| && cs[i].node == node :: cs[i].port.Some?
    ensures forall s | s in NodeSpokes(node, used[j], cs) :: HasPort(m, s)
    ensures InRange(LinkEnds(j, cs, node, slot), |names|)
    ensures CardSpokes(m, lab, slot, NodeSpokes(node, used[j], cs)) == Named(lab, names, used, LinkEnds(j, cs, node, slot))
  {
    if cs != [] {
      var n := |cs| - 1;
      LinkLoop(m, lab, names, used, j, cs[..n], node, slot);
      LastConnector(j, used[j], cs, node, slot);
      if cs[n].node == node {
        assert Leads(m, SpokeName(used[j], n), cs[n], names[j]);
        CardSpokesGrow(m, lab, slot, NodeSpokes(node, used[j], cs[..n]), SpokeName(used[j], n));
        NamedGrow(lab, names, used, LinkEnds(j, cs[..n], node, slot), End(j, n));
      }
    }
  }

  lemma LastConnector(j: nat, vni: nat, cs: seq<Connector>, node: string, slot: string)
    requires cs != []
    ensures var n := |cs| - 1;
            && NodeSpokes(node, vni, cs) ==
               (if cs[n].node == node then NodeSpokes(node, vni, cs[..n]) + [SpokeName(vni, n)] else NodeSpokes(node, vni, cs[..n]))
            && LinkEnds(j, cs, node, slot) ==
               (if Plugged(cs[n], node, slot) then LinkEnds(j, cs[..n], node, slot) + [End(j, n)] else LinkEnds(j, cs[..n], node, slot))
  {
  }

  lemma CardSpokesGrow(m: Maps, lab: string, slot: string, spokes: seq<string>, spoke: string)
    requires (forall s | s in spokes :: HasPort(m, s)) && HasPort(m, spoke)
    ensures CardSpokes(m, lab, slot, spokes + [spoke]) ==
            if m.connectors[spoke].port.value == slot
            then CardSpokes(m, lab, slot, spokes) + [Attachment(spoke, LanName(lab, LinkOf(m, spoke)))]
            else CardSpokes(m, lab, slot, spokes)
  {
    assert (spokes + [spoke])[..|spokes|] == spokes;
  }

  lemma NamedGrow(lab: string, names: seq<string>, used: seq<nat>, ends: seq<End>, e: End)
    requires |names| == |used| && InRange(ends, |names|) && e.link < |names|
    ensures Named(lab, names, used, ends + [e]) == Named(lab, names, used, ends) + [AttachmentOf(lab, names, used, e)]
  {
    assert (ends + [e])[..|ends|] == ends;
  }

  /** The links of `names` that are in k, in the same order. */
  function Select(names: seq<string>, k: set<string>): seq<string> {
    if names == [] then []
    else
      var n := |names| - 1;
      Select(names[..n], k) + if names[n] in k then [names[n]] else []
  }

  lemma {:induction false} SelectElems(names: seq<string>, k: set<string>)
    ensures Elems(Select(names, k)) == Elems(names) * k
  {
    if names != [] {
      var n := |names| - 1;
      SelectElems(names[..n], k);
      assert Elems(names) == Elems(names[..n]) + {names[n]};
      assert Elems(Select(names, k)) == Elems(Select(names[..n], k)) + if names[n] in k then {names[n]} else {};
    }
  }

  lemma {:induction false} SelectAscending(names: seq<string>, k: set<string>)
    requires Ascending(names)
    ensures Ascending(Select(names, k))
  {
    if names != [] {
      var n := |names| - 1;
      SelectAscending(names[..n], k);
      SelectElems(names[..n], k);
      var r := Select(names[..n], k);
      forall i | 0 <= i < |r| && names[n] in k
        ensures Less(r[i], names[n])
      {
        assert r[i] in Elems(r);
        assert r[i] in Elems(names[..n]);
      }
    }
  }

  lemma SortedIsSelect(names: seq<string>, k: set<string>)
    requires Ascending(names) && k <= Elems(names)
    ensures Sorted(k) == Select(names, k)
  {
    SelectAscending(names, k);
    SelectElems(names, k);
    AscendingUnique(Sorted(k), Select(names, k));
  }

  ghost predicate MapsOf(m: Maps, links: map<string, seq<Connector>>, names: seq<string>, used: seq<nat>, node: string)
    requires |used| == |names| && AreLinks(links, names)
  {
    forall j: nat | j < |names| ::
      && SpokesAt(m.spokes, node, names[j]) == NodeSpokes(node, used[j], links[names[j]])
      && LeadBack(m, names[j], used[j], links[names[j]])
  }

  lemma LastLink(m: Maps, lab: string, node: string, slot: string, names: seq<string>, j: nat)
    requires j < |names| && AllHavePorts(m, node, Select(names[..j], LinksOf(m, node)))
    requires forall s | s in SpokesAt(m.spokes, node, names[j]) :: HasPort(m, s)
    ensures AllHavePorts(m, node, Select(names[..j + 1], LinksOf(m, node)))
    ensures CardLinks(m, lab, node, slot, Select(names[..j + 1], LinksOf(m, node))) ==
            CardLinks(m, lab, node, slot, Select(names[..j], LinksOf(m, node)))
            + CardSpokes(m, lab, slot, SpokesAt(m.spokes, node, names[j]))
  {
    var known := LinksOf(m, node);
    assert names[..j + 1][..j] == names[..j];
    var before := Select(names[..j], known);
    if names[j] in known {
      assert Select(names[..j + 1], known) == before + [names[j]];
      assert (before + [names[j]])[..|before|] == before;
    } else {
      assert SpokesAt(m.spokes, node, names[j]) == [] && Select(names[..j + 1], known) == before;
    }
  }

  lemma {:induction false} LoopsComputeEnds(m: Maps, lab: string, links: map<string, seq<Connector>>,
                                            names: seq<string>, used: seq<nat>, node: string, slot: string, k: nat)
    requires |used| == |names| && AreLinks(links, names) && PortsSet(links, node) && MapsOf(m, links, names, used, node)
    requires k <= |names|
    ensures AllHavePorts(m, node, Select(names[..k], LinksOf(m, node)))
    ensures InRange(CardEnds(links, names, node, slot, k), |names|)
    ensures CardLinks(m, lab, node, slot, Select(names[..k], LinksOf(m, node))) ==
            Named(lab, names, used, CardEnds(links, names, node, slot, k))
  {
    if k > 0 {
      var j := k - 1;
      LoopsComputeEnds(m, lab, links, names, used, node, slot, j);
      LinkLoop(m, lab, names, used, j, links[names[j]], node, slot);
      NamedConcat(lab, names, used, CardEnds(links, names, node, slot, j), LinkEnds(j, links[names[j]], node, slot));
      LastLink(m, lab, node, slot, names, j);
    } else {
      assert Select(names[..0], LinksOf(m, node)) == [];
    }
  }

  lemma AreMapsOf(links: map<string, seq<Connector>>, names: seq<string>, used: seq<nat>, node: string)
    requires |used| == |names| && AreLinks(links, names) && Distinct(used) && Distinct(names)
    ensures MapsOf(AddLinks(links, names, used), links, names, used, node)
  {
    var m := AddLinks(links, names, used);
    forall j: nat | j < |names|
      ensures SpokesAt(m.spokes, node, names[j]) == NodeSpokes(node, used[j], links[names[j]])
      ensures LeadBack(m, names[j], used[j], links[names[j]])
    {
      SpokesAreNodeSpokes(links, names, used, node, j);
      forall i: nat | i < |links[names[j]]|
        ensures Leads(m, SpokeName(used[j], i), links[names[j]][i], names[j])
      {
        SpokeLeadsBack(links, names, used, j, i);
      }
    }
  }

  lemma InterfacesOf(m: Maps, lab: string, links: map<string, seq<Connector>>, names: seq<string>, used: seq<nat>,
                     node: string, slot: string)
    requires |used| == |names| && AreLinks(links, names) && PortsSet(links, node) && MapsOf(m, links, names, used, node)
    requires Ascending(names) && LinksOf(m, node) <= Elems(names)
    ensures AllHavePorts(m, node, Sorted(LinksOf(m, node)))
    ensures CardLinks(m, lab, node, slot, Sorted(LinksOf(m, node))) ==
            Named(lab, names, used, CardEnds(links, names, node, slot, |names|))
  {
    SortedIsSelect(names, LinksOf(m, node));
    assert names[..|names|] == names;
    LoopsComputeEnds(m, lab, links, names, used, node, slot, |names|);
  }

  lemma SortedNames(links: map<string, seq<Connector>>)
    ensures AreLinks(links, Sorted(links.Keys)) && Distinct(Sorted(links.Keys))
  {
    assert forall n | n in Sorted(links.Keys) :: n in Elems(Sorted(links.Keys));
    AscendingDistinct(Sorted(links.Keys));
  }

  /** With the maps EnsureLinks built, and every connector of the node given a port, the interfaces of a card are those
      of the connectors plugged into it, in sorted-link and then connector order. */
  lemma CardInterfaces(lab: string, links: map<string, seq<Connector>>, names: seq<string>, used: seq<nat>, node: string, slot: string)
    requires names == Sorted(links.Keys) && |used| == |names| && Distinct(used) && PortsSet(links, node)
    ensures AreLinks(links, names)
    ensures var m := AddLinks(links, names, used);
            && AllHavePorts(m, node, Sorted(LinksOf(m, node)))
            && CardLinks(m, lab, node, slot, Sorted(LinksOf(m, node))) ==
               Named(lab, names, used, CardEnds(links, names, node, slot, |names|))
  {
    SortedNames(links);
    AreMapsOf(links, names, used, node);
    KnownLinks(links, names, used, node);
    InterfacesOf(AddLinks(links, names, used), lab, links, names, used, node, slot);
  }

  lemma {:induction false} AddConnectorsLinks(m: Maps, link: string, vni: nat, cs: seq<Connector>, node: string)
    ensures LinksOf(AddConnectors(m, link, vni, cs), node) <= LinksOf(m, node) + {link}
  {
    if cs != [] {
      AddConnectorsLinks(m, link, vni, cs[..|cs| - 1], node);
    }
  }

  lemma {:induction false} KnownLinks(links: map<string, seq<Connector>>, names: seq<string>, used: seq<nat>, node: string)
    requires |used| <= |names| && AreLinks(links, names)
    ensures LinksOf(AddLinks(links, names, used), node) <= Elems(names)
  {
    if used != [] {
      var j := |used| - 1;
      KnownLinks(links, names, used[..j], node);
      AddConnectorsLinks(AddLinks(links, names, used[..j]), names[j], used[j], links[names[j]], node);
    }
  }

  // ---- conservation ----

  lemma EndCount(a: End, e: End)
    ensures multiset([a])[e] == if e == a then 1 else 0
  {
  }

  lemma NoCount(e: End)
    ensures multiset([])[e] == 0
  {
  }

  lemma LinkEndsStep(j: nat, cs: seq<Connector>, node: string, slot: string, e: End)
    requires cs != []
    ensures multiset(LinkEnds(j, cs, node, slot))[e] ==
            multiset(LinkEnds(j, cs[..|cs| - 1], node, slot))[e]
            + if Plugged(cs[|cs| - 1], node, slot) && e == End(j, |cs| - 1) then 1 else 0
  {
    var n := |cs| - 1;
    EndCount(End(j, n), e);
    NoCount(e);
    CountAdds(LinkEnds(j, cs[..n], node, slot), if Plugged(cs[n], node, slot) then [End(j, n)] else [], e);
  }

  predicate PluggedIn(j: nat, cs: seq<Connector>, node: string, slot: string, e: End) {
    e.link == j && e.connector < |cs| && Plugged(cs[e.connector], node, slot)
  }

  lemma PluggedInStep(j: nat, cs: seq<Connector>, node: string, slot: string, e: End)
    requires cs != []
    ensures PluggedIn(j, cs, node, slot, e) <==>
            PluggedIn(j, cs[..|cs| - 1], node, slot, e) || (Plugged(cs[|cs| - 1], node, slot) && e == End(j, |cs| - 1))
  {
  }

  lemma {:induction false} LinkEndsCount(j: nat, cs: seq<Connector>, node: string, slot: string, e: End)
    ensures multiset(LinkEnds(j, cs, node, slot))[e] == if PluggedIn(j, cs, node, slot, e) then 1 else 0
  {
    if cs == [] {
      NoCount(e);
    } else {
      LinkEndsCount(j, cs[..|cs| - 1], node, slot, e);
      LinkEndsStep(j, cs, node, slot, e);
      PluggedInStep(j, cs, node, slot, e);
    }
  }

  /** Among the first k links the end belongs to a connector plugged into the card. */
  predicate IsPlugged(links: map<string, seq<Connector>>, names: seq<string>, node: string, slot: string, k: nat, e: End)
    requires k <= |names| && forall i | 0 <= i < k :: names[i] in links
  {
    e.link < k && e.connector < |links[names[e.link]]| && Plugged(links[names[e.link]][e.connector], node, slot)
  }

  lemma IsPluggedStep(links: map<string, seq<Connector>>, names: seq<string>, node: string, slot: string, k: nat, e: End)
    requires 0 < k <= |names| && forall i | 0 <= i < k :: names[i] in links
    ensures IsPlugged(links, names, node, slot, k, e) <==>
            IsPlugged(links, names, node, slot, k - 1, e) || PluggedIn(k - 1, links[names[k - 1]], node, slot, e)
    ensures !(IsPlugged(links, names, node, slot, k - 1, e) && PluggedIn(k - 1, links[names[k - 1]], node, slot, e))
  {
  }

  lemma {:induction false} AttachedStep(links: map<string, seq<Connector>>, names: seq<string>, node: string, slot: string, k: nat,
                                        e: End, before: nat)
    requires AreLinks(links, names) && 0 < k <= |names|
    requires multiset(CardEnds(links, names, node, slot, k - 1))[e] == before
    ensures multiset(CardEnds(links, names, node, slot, k))[e] ==
            before + if PluggedIn(k - 1, links[names[k - 1]], node, slot, e) then 1 else 0
  {
    CountStep(links, names, node, slot, k, e);
    LinkEndsCount(k - 1, links[names[k - 1]], node, slot, e);
  }

  /** A connector is attached once to the card it is plugged into, and to no other card of any node; a card's machine
      has no other link interfaces. */
  lemma {:induction false} AttachedOnce(links: map<string, seq<Connector>>, names: seq<string>, node: string, slot: string,
                                        k: nat, e: End)
    requires AreLinks(links, names) && k <= |names|
    ensures multiset(CardEnds(links, names, node, slot, k))[e] == if IsPlugged(links, names, node, slot, k, e) then 1 else 0
  {
    if k == 0 {
      NothingAttached(links, names, node, slot, e);
    } else {
      AttachedOnce(links, names, node, slot, k - 1, e);
      IsPluggedStep(links, names, node, slot, k, e);
      AttachedStep(links, names, node, slot, k, e, if IsPlugged(links, names, node, slot, k - 1, e) then 1 else 0);
    }
  }

  lemma CountAdds(a: seq<End>, b: seq<End>, e: End)
    ensures multiset(a + b)[e] == multiset(a)[e] + multiset(b)[e]
  {
  }

  lemma CountStep(links: map<string, seq<Connector>>, names: seq<string>, node: string, slot: string, k: nat, e: End)
    requires AreLinks(links, names) && 0 < k <= |names|
    ensures multiset(CardEnds(links, names, node, slot, k))[e] ==
            multiset(CardEnds(links, names, node, slot, k - 1))[e] + multiset(LinkEnds(k - 1, links[names[k - 1]], node, slot))[e]
  {
    CountAdds(CardEnds(links, names, node, slot, k - 1), LinkEnds(k - 1, links[names[k - 1]], node, slot), e);
  }

  lemma NothingAttached(links: map<string, seq<Connector>>, names: seq<string>, node: string, slot: string, e: End)
    requires AreLinks(links, names)
    ensures multiset(CardEnds(links, names, node, slot, 0))[e] == 0
  {
    assert CardEnds(links, names, node, slot, 0) == [];
  }

  /** The interfaces of different connectors differ, in name and in the network they use. */
  lemma AttachmentsDiffer(lab: string, names: seq<string>, used: seq<nat>, a: End, b: End)
    requires a.link < |names| == |used| && b.link < |names| && Distinct(used) && a != b
    ensures AttachmentOf(lab, names, used, a).spoke != AttachmentOf(lab, names, used, b).spoke
  {
    if SpokeName(used[a.link], a.connector) == SpokeName(used[b.link], b.connector) {
      SpokeNameInjective(used[a.link], a.connector, used[b.link], b.connector);
    }
  }

  /** All link interfaces of a node's cards together. */
  ghost function AllCards(links: map<string, seq<Connector>>, names: seq<string>, node: string, slots: seq<string>): multiset<End>
    requires AreLinks(links, names)
  {
    if slots == [] then multiset{}
    else AllCards(links, names, node, slots[1..]) + multiset(CardEnds(links, names, node, slots[0], |names|))
  }

  /** Over all cards of its node, in whatever order they are visited, a connector is attached exactly once when its port
      is one of the chassis' slots, and otherwise never. */
  lemma {:induction false} AttachmentsConserved(links: map<string, seq<Connector>>, names: seq<string>, node: string,
                                                slots: seq<string>, e: End)
    requires AreLinks(links, names) && Distinct(slots)
    requires e.link < |names| && e.connector < |links[names[e.link]]| && links[names[e.link]][e.connector].node == node
    ensures AllCards(links, names, node, slots)[e] ==
            var port := links[names[e.link]][e.connector].port;
            if port.Some? && port.value in slots then 1 else 0
  {
    if slots == [] {
      NoCards(links, names, node, e);
    } else {
      FirstIsApart(slots);
      AttachmentsConserved(links, names, node, slots[1..], e);
      AttachedOnce(links, names, node, slots[0], |names|, e);
      FirstCard(links, names, node, slots, e);
    }
  }

  lemma NoCards(links: map<string, seq<Connector>>, names: seq<string>, node: string, e: End)
    requires AreLinks(links, names)
    ensures AllCards(links, names, node, [])[e] == 0
  {
  }

  lemma FirstCard(links: map<string, seq<Connector>>, names: seq<string>, node: string, slots: seq<string>, e: End)
    requires AreLinks(links, names) && slots != []
    ensures AllCards(links, names, node, slots)[e] ==
            AllCards(links, names, node, slots[1..])[e] + multiset(CardEnds(links, names, node, slots[0], |names|))[e]
  {
  }

  lemma FirstIsApart(slots: seq<string>)
    requires Distinct(slots) && slots != []
    ensures Distinct(slots[1..]) && slots[0] !in slots[1..] && forall s :: s in slots <==> s == slots[0] || s in slots[1..]
  {
    assert slots == [slots[0]] + slots[1..];
  }

  lemma {:induction false} SpokeListed(node: string, vni: nat, cs: seq<Connector>, i: nat)
    requires i < |cs| && cs[i].node == node
    ensures SpokeName(vni, i) in NodeSpokes(node, vni, cs)
  {
    if i < |cs| - 1 {
      SpokeListed(node, vni, cs[..|cs| - 1], i);
    }
  }

  /** getVMI can describe a node's machines exactly when every connector of the node has a port. */
  lemma LoopsNeedPorts(m: Maps, lab: string, links: map<string, seq<Connector>>, names: seq<string>, used: seq<nat>, node: string)
    requires names == Sorted(links.Keys) && |used| == |names| && Distinct(used) && AreLinks(links, names)
    requires m == AddLinks(links, names, used)
    ensures AllHavePorts(m, node, Sorted(LinksOf(m, node))) <==> PortsSet(links, node)
  {
    if PortsSet(links, node) {
      CardInterfaces(lab, links, names, used, node, "");
    }
    if AllHavePorts(m, node, Sorted(LinksOf(m, node))) {
      SortedNames(links);
      AreMapsOf(links, names, used, node);
      forall l, i: nat | l in links && i < |links[l]| && links[l][i].node == node
        ensures links[l][i].port.Some?
      {
        assert l in Elems(names);
        var j :| 0 <= j < |names| && names[j] == l;
        PortOfSpoke(m, names, used, links, node, j, i);
      }
    }
  }

  lemma PortOfSpoke(m: Maps, names: seq<string>, used: seq<nat>, links: map<string, seq<Connector>>, node: string, j: nat, i: nat)
    requires |used| == |names| && AreLinks(links, names) && MapsOf(m, links, names, used, node)
    requires j < |names| && i < |links[names[j]]| && links[names[j]][i].node == node
    requires AllHavePorts(m, node, Sorted(LinksOf(m, node)))
    ensures links[names[j]][i].port.Some?
  {
    var spoke := SpokeName(used[j], i);
    SpokeListed(node, used[j], links[names[j]], i);
    assert spoke in SpokesAt(m.spokes, node, names[j]);
    assert names[j] in Elems(Sorted(LinksOf(m, node)));
    assert HasPort(m, spoke);
    assert Leads(m, spoke, links[names[j]][i], names[j]);
  }

  // ---- the machines of a node ----

  /** All link interfaces getVMI gives the machines of a node's cards. */
  ghost function MachineInterfaces(m: Maps, lab: string, node: string, slots: seq<string>): multiset<Attachment>
    requires AllHavePorts(m, node, Sorted(LinksOf(m, node)))
  {
    if slots == [] then multiset{}
    else
      MachineInterfaces(m, lab, node, slots[1..])
      + multiset(CardLinks(m, lab, node, slots[0], Sorted(LinksOf(m, node))))
  }

  /** Naming keeps multiplicities: different connectors get different interfaces. */
  lemma {:induction false} NamedCount(lab: string, names: seq<string>, used: seq<nat>, ends: seq<End>, e: End)
    requires |names| == |used| && InRange(ends, |names|) && Distinct(used) && e.link < |names|
    ensures multiset(Named(lab, names, used, ends))[AttachmentOf(lab, names, used, e)] == multiset(ends)[e]
  {
    if ends != [] {
      var n := |ends| - 1;
      NamedCount(lab, names, used, ends[..n], e);
      NamedLast(lab, names, used, ends, AttachmentOf(lab, names, used, e));
      EndsLast(ends, e);
      if ends[n] != e {
        AttachmentsDiffer(lab, names, used, e, ends[n]);
      }
    }
  }

  lemma EndsLast(ends: seq<End>, e: End)
    requires ends != []
    ensures multiset(ends)[e] == multiset(ends[..|ends| - 1])[e] + if ends[|ends| - 1] == e then 1 else 0
  {
    assert ends == ends[..|ends| - 1] + [ends[|ends| - 1]];
  }

  lemma NamedLast(lab: string, names: seq<string>, used: seq<nat>, ends: seq<End>, a: Attachment)
    requires |names| == |used| && InRange(ends, |names|) && ends != []
    ensures var n := |ends| - 1;
            multiset(Named(lab, names, used, ends))[a] ==
            multiset(Named(lab, names, used, ends[..n]))[a] + if a == AttachmentOf(lab, names, used, ends[n]) then 1 else 0
  {
  }

  lemma {:induction false} NamedOnly(lab: string, names: seq<string>, used: seq<nat>, ends: seq<End>, a: Attachment) returns (e: End)
    requires |names| == |used| && InRange(ends, |names|) && a in Named(lab, names, used, ends)
    ensures e in ends && e.link < |names| && a == AttachmentOf(lab, names, used, e)
  {
    var n := |ends| - 1;
    if a in Named(lab, names, used, ends[..n]) {
      e := NamedOnly(lab, names, used, ends[..n], a);
    } else {
      e := ends[n];
    }
  }

  /** The machines' interfaces count the same as the connectors plugged into the cards. */
  lemma {:induction false} MachineCount(m: Maps, lab: string, links: map<string, seq<Connector>>, names: seq<string>, used: seq<nat>,
                                        node: string, slots: seq<string>, e: End)
    requires names == Sorted(links.Keys) && |used| == |names| && Distinct(used) && PortsSet(links, node)
    requires AreLinks(links, names) && m == AddLinks(links, names, used) && e.link < |names|
    requires AllHavePorts(m, node, Sorted(LinksOf(m, node)))
    ensures MachineInterfaces(m, lab, node, slots)[AttachmentOf(lab, names, used, e)] == AllCards(links, names, node, slots)[e]
  {
    if slots != [] {
      MachineCount(m, lab, links, names, used, node, slots[1..], e);
      CardInterfaces(lab, links, names, used, node, slots[0]);
      NamedCount(lab, names, used, CardEnds(links, names, node, slots[0], |names|), e);
    }
  }

  /** The machines have no other link interfaces. */
  lemma {:induction false} MachineOnly(m: Maps, lab: string, links: map<string, seq<Connector>>, names: seq<string>, used: seq<nat>,
                                       node: string, slots: seq<string>, a: Attachment)
    returns (e: End)
    requires names == Sorted(links.Keys) && |used| == |names| && Distinct(used) && PortsSet(links, node)
    requires AreLinks(links, names) && m == AddLinks(links, names, used)
    requires AllHavePorts(m, node, Sorted(LinksOf(m, node))) && a in MachineInterfaces(m, lab, node, slots)
    ensures e.link < |names| && a == AttachmentOf(lab, names, used, e) && e.connector < |links[names[e.link]]|
    ensures var c := links[names[e.link]][e.connector]; c.node == node && c.port.Some? && c.port.value in slots
  {
    CardInterfaces(lab, links, names, used, node, slots[0]);
    var ends := CardEnds(links, names, node, slots[0], |names|);
    if a in Named(lab, names, used, ends) {
      e := NamedOnly(lab, names, used, ends, a);
      AttachedOnce(links, names, node, slots[0], |names|, e);
      assert multiset(ends)[e] > 0;
    } else {
      e := MachineOnly(m, lab, links, names, used, node, slots[1..], a);
    }
  }
}

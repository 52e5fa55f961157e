/** The lab controller: Reconcile, EnsureLinks, the allocators, create-if-not-exists, the network part of
    SRVM.Ensure and the tear-down, against the API server. Each method is proved to follow the cluster state
    machine call by call, so everything proved of the runs of that machine holds of the controller. */
module Reconciler {
  import opened Wrappers
  import opened Text
  import opened Names
  import opened Allocator
  import opened Cluster
  import opened Server
  import opened ClusterInvariant
  import opened ClusterSteps
  import opened Bridges
  import opened CallSteps
  import opened Effects
  import S = Spokes

  /** ParsedLab: the lab a reconcile works on, and the maps it builds. */
  class ParsedLab {
    const key: Key
    const lab: Lab
    var connectorMap: map<string, seq<string>>
    var spokeMap: map<string, map<string, seq<string>>>
    var spokeConnectorMap: map<string, Connector>
    var spokeLinkMap: map<string, string>

    function Maps(): S.Maps
      reads this
    {
      S.Maps(spokeMap, spokeConnectorMap, spokeLinkMap)
    }

    constructor (key: Key, lab: Lab)
      ensures this.key == key && this.lab == lab && Maps() == S.NoMaps
      ensures forall n, l :: S.Times(connectorMap, n, l) == if l in lab.links then S.CountNode(n, lab.links[l]) else 0
    {
      this.key, this.lab := key, lab;
      spokeMap, spokeConnectorMap, spokeLinkMap := map[], map[], map[];
      new;
      connectorMap := S.ParseLab(lab.links);
    }
  }

  // ---- the allocators ----

  /** What listing and marking leaves in the bit set: 0, the numbers in use, and a length that covers them. */
  ghost predicate Covers(bset: BitSet, used: set<nat>)
    reads bset
  {
    && bset.Marked() == used + {0} && |bset.bits| >= MaxIndex
    && (forall u | u in used :: u < |bset.bits|)
    && (|bset.bits| > MaxIndex ==> |bset.bits| - 1 in used)
  }

  method NewBitSet() returns (bset: BitSet)
    ensures fresh(bset) && Covers(bset, {})
  {
    bset := new BitSet(MaxIndex);
    bset.Set(0);
  }

  method Mark(bset: BitSet, i: nat, ghost used: set<nat>)
    requires Covers(bset, used)
    modifies bset
    ensures Covers(bset, used + {i})
  {
    bset.Set(i);
    assert used + {0} + {i} == used + {i} + {0};
  }

  method MarkVnis(lans: map<Key, Lan>) returns (bset: BitSet)
    ensures fresh(bset) && Covers(bset, UsedVnis(lans))
  {
    bset := NewBitSet();
    var todo := lans.Keys;
    ghost var used: set<nat> := {};
    while todo != {}
      invariant todo <= lans.Keys && Covers(bset, used)
      invariant used == set k | k in lans && k !in todo :: lans[k].vni
      decreases todo
    {
      var k :| k in todo;
      Mark(bset, lans[k].vni, used);
      used := used + {lans[k].vni};
      todo := todo - {k};
    }
    assert used == UsedVnis(lans);
  }

  /** Marking fails at a label that is not a number. */
  method MarkIndexes(nads: map<Key, Nad>) returns (bset: BitSet, ok: bool)
    ensures fresh(bset)
    ensures ok == !BadLabel(nads)
    ensures ok ==> Covers(bset, UsedIndexes(nads))
  {
    bset := NewBitSet();
    var todo := nads.Keys;
    ghost var used: set<nat> := {};
    while todo != {}
      invariant todo <= nads.Keys && Covers(bset, used)
      invariant forall k | k in nads && k !in todo && nads[k].index.Some? :: LabelIndex(nads[k]).Some?
      invariant used == set k | k in nads && k !in todo && LabelIndex(nads[k]).Some? :: LabelIndex(nads[k]).value
      decreases todo
    {
      var k :| k in todo;
      if nads[k].index.Some? {
        var i := Atoi(nads[k].index.value);
        if i.None? || i.value < 0 {
          return bset, false;
        }
        Mark(bset, i.value, used);
        used := used + {i.value};
      }
      todo := todo - {k};
    }
    assert used == UsedIndexes(nads);
    ok := true;
  }

  method GetAvailableVNIs(server: ApiServer, required: nat) returns (r: Option<seq<nat>>, ghost o: Outcome)
    requires server.Valid()
    modifies server
    ensures server.Asked(server.Stored(), o) && server.pc == old(server.pc)
    ensures server.calls == old(server.calls) + 1 && Interfered(old(server.trace), server.trace)
    ensures server.SmoothSince(old(server.calls)) ==> o.Done? && server.Stored() == old(server.Stored())
    ensures r == if o.Done? then Allocate(UsedVnis(server.lans), required) else None
  {
    var reply;
    reply, o := server.ListLans();
    if reply.Error? {
      return None, o;
    }
    var bset := MarkVnis(reply.value);
    r := TakeClear(bset, required, UsedVnis(reply.value));
    if r.Some? {
      ConversionIsLossless(UsedVnis(reply.value), required);
      var rlist := ToInt32(r.value);
      r := Some(rlist);
    }
  }

  method ToInt32(xs: seq<nat>) returns (rlist: seq<nat>)
    requires forall x | x in xs :: Int32(x) == x
    ensures rlist == xs
  {
    rlist := [];
    for i := 0 to |xs|
      invariant rlist == xs[..i]
    {
      assert xs[i] in xs;
      rlist := rlist + [Int32(xs[i])];
    }
  }

  method GetAvailableBrIndex(server: ApiServer, required: nat) returns (r: Option<seq<nat>>, ghost o: Outcome)
    requires server.Valid()
    modifies server
    ensures server.Asked(server.Stored(), o) && server.pc == old(server.pc)
    ensures server.calls == old(server.calls) + 1 && Interfered(old(server.trace), server.trace)
    ensures server.SmoothSince(old(server.calls)) ==> o.Done? && server.Stored() == old(server.Stored())
    ensures r == if o.Done? && !BadLabel(server.nads) then Allocate(UsedIndexes(server.nads), required) else None
  {
    var reply;
    reply, o := server.ListNads();
    if reply.Error? {
      return None, o;
    }
    var bset, ok := MarkIndexes(reply.value);
    if !ok {
      return None, o;
    }
    r := TakeClear(bset, required, UsedIndexes(reply.value));
  }

  // ---- get or create ----

  method IsOwnedbyLab(owners: seq<Owner>, uid: nat) returns (owned: bool)
    ensures owned == OwnedBy(owners, uid)
  {
    for i := 0 to |owners|
      invariant forall j | 0 <= j < i :: owners[j].uid != uid
    {
      if owners[i].uid == uid {
        return true;
      }
    }
    return false;
  }

  // ---- recording a call, by the controller's position ----

  /** Records a call of the reconcile, before which only others acted since `from`. */
  ghost method Recorded(server: ApiServer, from: Log, before: Api, e: Event, pc': Pc)
    requires from.calls <= server.calls && Interfered(from.trace, server.trace)
    requires !e.Start? && !e.Stop? && !Environment(e) && Asks(server.pc, e) && server.Asked(before, e.outcome)
    requires Leads(before, server.pc, e, server.Stored(), pc')
    modifies server`trace, server`history, server`pc
    ensures server.Valid() && server.pc == pc' && WentOn(from, server.Past())
  {
    ghost var asked := server.Past();
    server.Record(before, e);
    RecordedGoesOn(from, asked, server.Past(), e);
  }

  ghost method Called(server: ApiServer, from: Log, before: Api, o: Outcome, pc': Pc)
    requires from.calls <= server.calls && Interfered(from.trace, server.trace)
    requires server.Asked(before, o) && Calls(before, server.pc, o, server.Stored(), pc')
    modifies server`trace, server`history, server`pc
    ensures server.Valid() && server.pc == pc' && WentOn(from, server.Past())
  {
    CallLeads(before, server.pc, o, server.Stored(), pc');
    Recorded(server, from, before, Call(o), pc');
  }

  /** createIfNotExistsOrRemove for a LAN: `target` is the object in memory before its owner is set. The look-up that found it
      has been made, but is not recorded yet. */
  method CreateLanIfNotExists(server: ApiServer, plab: ParsedLab, link: string, target: Lan, stored: bool) returns (ok: bool)
    requires server.Asked(server.Stored(), Done) && server.pc.GetLan? && server.pc.key == plab.key && server.pc.lab == plab.lab
    requires AtLink(server.pc, link, LanKey(plab.key, link))
    requires Composed(server.Stored(), server.pc, link, target, stored)
    modifies server
    ensures server.Valid() && WentOn(old(server.Past()), server.Past())
    ensures server.pc == if ok then Linked(plab.key, plab.lab, old(server.pc.vnis), old(server.pc.used) + [target.vni]) else Idle
    ensures server.SmoothSince(old(server.calls)) ==>
              LanOwnedAndCreated(old(server.Stored()), server.Stored(), LanKey(plab.key, link), plab.key, plab.lab, target, stored, ok)
  {
    ghost var pc, from := server.pc, server.Past();
    var name := LanKey(plab.key, link);
    var owners := SetController(target.owners, LabRef(plab.key, plab.lab));
    GetLanNext(server.Stored(), pc, link, name, target, stored, owners);
    Called(server, from, server.Stored(), Done, AfterSetOwner(pc, target, stored, owners));
    if owners.None? {
      return false;
    }
    var lan := target.(owners := owners.value);
    ghost var found := server.Past();
    var reply := FindLan(server, link, name);
    GoesOn(from, found, server.Past());
    if reply.Error? {
      return false;
    }
    if reply.value.Some? {
      ok := IsOwnedbyLab(reply.value.value.owners, plab.lab.uid);
    } else {
      found := server.Past();
      ok := CreateNewLan(server, link, name, lan, stored);
      GoesOn(from, found, server.Past());
    }
  }

  method FindLan(server: ApiServer, ghost link: string, name: Key) returns (reply: Reply<Option<Lan>>)
    requires server.Valid() && server.pc.PutLan? && AtLink(server.pc, link, name)
    modifies server
    ensures server.Valid() && WentOn(old(server.Past()), server.Past())
    ensures server.pc == AfterFind(old(server.pc), reply)
    ensures server.SmoothSince(old(server.calls)) ==>
              server.Stored() == old(server.Stored()) && reply == Reply(Lookup(old(server.lans), name))
  {
    ghost var o, from := Done, server.Past();
    reply, o := server.GetLan(name);
    PutLanNext(server.Stored(), server.pc, link, name, o, reply);
    Called(server, from, server.Stored(), o, AfterFind(server.pc, reply));
  }

  method CreateNewLan(server: ApiServer, ghost link: string, name: Key, lan: Lan, stored: bool) returns (ok: bool)
    requires server.Valid() && server.pc.CreateLan? && server.pc.lan == lan && server.pc.stored == stored
    requires AtLink(server.pc, link, name)
    modifies server
    ensures server.Valid() && WentOn(old(server.Past()), server.Past())
    ensures server.pc == LinkDone(old(server.pc), ok)
    ensures server.SmoothSince(old(server.calls)) && name !in old(server.lans) ==>
              LanGotOrCreated(old(server.Stored()), server.Stored(), name, 0, lan, stored, ok)
  {
    ghost var before, o, from := server.Stored(), Done, server.Past();
    ok, before, o := server.CreateLan(name, lan, stored);
    CreateLanNext(before, server.pc, link, name, o, server.Stored(), ok);
    Called(server, from, before, o, LinkDone(server.pc, ok));
  }

  // ---- EnsureLinks ----

  /** Notes one spoke in the three maps; a missing inner map or list is made first. */
  method AddSpoke(plab: ParsedLab, linkName: string, vni: nat, index: nat, c: Connector)
    modifies plab
    ensures plab.Maps() == S.AddConnector(old(plab.Maps()), linkName, vni, index, c)
    ensures plab.connectorMap == old(plab.connectorMap)
  {
    var spokeName := SpokeName(vni, index);
    var spokeMap := plab.spokeMap;
    if c.node !in plab.spokeMap {
      plab.spokeMap := plab.spokeMap[c.node := map[]];
    }
    if linkName !in plab.spokeMap[c.node] {
      plab.spokeMap := plab.spokeMap[c.node := plab.spokeMap[c.node][linkName := []]];
    }
    var list := plab.spokeMap[c.node][linkName] + [spokeName];
    plab.spokeMap := plab.spokeMap[c.node := plab.spokeMap[c.node][linkName := list]];
    ghost var ofNode := if c.node in spokeMap then spokeMap[c.node] else map[];
    assert list == (if linkName in ofNode then ofNode[linkName] else []) + [spokeName];
    assert plab.spokeMap[c.node] == ofNode[linkName := list];
    assert plab.spokeMap == spokeMap[c.node := ofNode[linkName := list]];
    plab.spokeConnectorMap := plab.spokeConnectorMap[spokeName := c];
    plab.spokeLinkMap := plab.spokeLinkMap[spokeName := linkName];
  }

  /** The inner loop of EnsureLinks: one spoke per connector, in the LAN in memory and in the maps. */
  method AddSpokes(plab: ParsedLab, linkName: string, lan: Lan) returns (r: Lan)
    requires linkName in plab.lab.links
    modifies plab
    ensures r == lan.(spokes := lan.spokes + Spokes(lan.vni, |plab.lab.links[linkName]|))
    ensures plab.Maps() == S.AddConnectors(old(plab.Maps()), linkName, lan.vni, plab.lab.links[linkName])
    ensures plab.connectorMap == old(plab.connectorMap)
  {
    var connectors := plab.lab.links[linkName];
    r := lan;
    assert connectors[..0] == [] && lan.spokes + Spokes(lan.vni, 0) == lan.spokes;
    for i := 0 to |connectors|
      invariant r == lan.(spokes := lan.spokes + Spokes(lan.vni, i))
      invariant plab.Maps() == S.AddConnectors(old(plab.Maps()), linkName, lan.vni, connectors[..i])
      invariant plab.connectorMap == old(plab.connectorMap)
    {
      S.AddConnectorsStep(old(plab.Maps()), linkName, lan.vni, connectors, i);
      S.SpokesStep(lan.spokes, lan.vni, i);
      var c := connectors[i];
      r := r.(spokes := r.spokes + [SpokeName(r.vni, i)]);
      AddSpoke(plab, linkName, r.vni, i, c);
    }
    assert connectors[..|connectors|] == connectors;
  }

  /** EnsureLinks for one link. When no call fails and nobody interferes it succeeds exactly when no LAN of somebody else has
      the name, and then the LAN stands. */
  method EnsureLink(server: ApiServer, plab: ParsedLab, linkName: string, vni: nat) returns (ok: bool, ghost used: nat)
    requires server.Valid() && server.pc.GetLan? && server.pc.key == plab.key && server.pc.lab == plab.lab
    requires AtLink(server.pc, linkName, LanKey(plab.key, linkName)) && vni == server.pc.vnis[|server.pc.used|]
    modifies server, plab
    ensures server.Valid() && WentOn(old(server.Past()), server.Past())
    ensures server.pc == if ok then Linked(plab.key, plab.lab, old(server.pc.vnis), old(server.pc.used) + [used]) else Idle
    ensures ok ==> plab.Maps() == S.AddConnectors(old(plab.Maps()), linkName, used, plab.lab.links[linkName])
    ensures plab.connectorMap == old(plab.connectorMap)
    ensures server.SmoothSince(old(server.calls)) && Inv(State(old(server.Stored()), old(server.pc))) ==>
              LinkEnsured(old(server.Stored()), server.Stored(), LanKey(plab.key, linkName), plab.lab.uid, ok)
  {
    ghost var from, pc, a := server.Past(), server.pc, server.Stored();
    var name := LanKey(plab.key, linkName);
    var reply, o := server.GetLan(name);
    used := 0;
    if reply.Error? {
      GetLanFails(server.Stored(), pc, o);
      Called(server, from, server.Stored(), o, Idle);
      return false, used;
    }
    var lan := LanInMemory(reply.value, vni);
    used := lan.vni;
    ghost var got := server.Past();
    ReadsGoOn(from, got);
    var target := AddSpokes(plab, linkName, lan);
    IsComposed(server.Stored(), pc, linkName, name, reply.value, target);
    ok := CreateLanIfNotExists(server, plab, linkName, target, reply.value.Some?);
    GoesOn(from, got, server.Past());
    if server.SmoothSince(from.calls) && Inv(State(a, pc)) {
      SmoothParts(server.script, from.calls, got.calls, server.calls);
      LinkFollows(a, server.Stored(), plab.key, plab.lab, name, target, ok);
    }
  }

  /** On success every link's LAN exists and is the lab's, as the state machine says, and the maps are those of
      the VNIs in `used`. On failure one call failed, was refused, or found no free VNI or another's LAN. When no call fails and
      nobody interferes it succeeds exactly when enough VNIs are free and no name is taken by somebody else. */
  method EnsureLinks(server: ApiServer, plab: ParsedLab) returns (ok: bool, ghost used: seq<nat>)
    requires server.Valid() && server.pc == ListVnis(plab.key, plab.lab) && plab.Maps() == S.NoMaps
    modifies server, plab
    ensures server.Valid() && WentOn(old(server.Past()), server.Past())
    ensures server.pc == if ok then PickNode(plab.key, plab.lab, used, plab.lab.nodes.Keys) else Idle
    ensures ok ==> |used| == |LinkNames(plab.lab)| && (forall n | n in LinkNames(plab.lab) :: n in plab.lab.links)
    ensures ok ==> plab.Maps() == S.AddLinks(plab.lab.links, LinkNames(plab.lab), used)
    ensures plab.connectorMap == old(plab.connectorMap)
    ensures LinksOutcome(server.script, old(server.Past()), server.Past(), old(server.Stored()), old(server.pc), server.Stored(),
                         plab.key, plab.lab, ok)
  {
    ghost var from, first, a := server.Past(), server.pc, server.Stored();
    server.IsReached();
    var vniList := AllocateVnis(server, plab);
    LinksBegin(server.script, from, server.Past(), a, first, server.Stored(), plab.key, plab.lab, vniList.Some?);
    if vniList.None? {
      return false, [];
    }
    var names := GetSortedKeySlice(plab.lab.links.Keys);
    NamesAreLinks(plab.lab);
    used := [];
    for i := 0 to |names|
      invariant |used| == i && server.Valid() && WentOn(from, server.Past())
      invariant server.pc == Linked(plab.key, plab.lab, vniList.value, used)
      invariant plab.Maps() == S.AddLinks(plab.lab.links, names, used)
      invariant plab.connectorMap == old(plab.connectorMap)
      invariant LinksSoFar(server.script, from, server.Past(), a, first, server.Stored(), plab.key, plab.lab, i)
    {
      LinkedIsGetLan(plab.key, plab.lab, vniList.value, used, names);
      ghost var before, at, b, vni := server.Past(), server.pc, server.Stored(), 0;
      server.IsReached();
      ok, vni := EnsureLink(server, plab, names[i], vniList.value[i]);
      GoesOn(from, before, server.Past());
      LinkTurn(server.script, from, before, server.Past(), server.start, a, first, b, at, server.Stored(), plab.key, plab.lab, i, ok);
      if !ok {
        return;
      }
      S.AddLinksStep(plab.lab.links, names, used, vni);
      used := used + [vni];
    }
    ok := true;
    LinksEnd(server.script, from, server.Past(), a, first, server.Stored(), plab.key, plab.lab);
  }

  method AllocateVnis(server: ApiServer, plab: ParsedLab) returns (vnis: Option<seq<nat>>)
    requires server.Valid() && server.pc == ListVnis(plab.key, plab.lab)
    modifies server
    ensures server.Valid() && WentOn(old(server.Past()), server.Past())
    ensures server.pc == if vnis.Some? then Linked(plab.key, plab.lab, vnis.value, []) else Idle
    ensures vnis.Some? ==> |vnis.value| == |plab.lab.links|
    ensures server.SmoothSince(old(server.calls)) ==>
              && server.Stored() == old(server.Stored())
              && (vnis.Some? <==> |Free(UsedVnis(old(server.lans)))| >= |plab.lab.links|)
  {
    ghost var from, o := server.Past(), Done;
    vnis, o := GetAvailableVNIs(server, |plab.lab.links|);
    ListVnisNext(server.Stored(), server.pc, o, vnis);
    AllocateExact(UsedVnis(server.lans), |plab.lab.links|);
    Called(server, from, server.Stored(), o, if vnis.Some? then Linked(plab.key, plab.lab, vnis.value, []) else Idle);
  }

  // ---- the network part of SRVM.Ensure ----

  method FindNad(server: ApiServer, name: Key, ghost index: nat) returns (reply: Reply<Option<Nad>>)
    requires server.Valid() && server.pc.PutNad? && AtBridge(server.pc, name, index)
    modifies server
    ensures server.Valid() && WentOn(old(server.Past()), server.Past())
    ensures server.pc == AfterFindNad(old(server.pc), reply)
    ensures reply.Reply? ==> reply.value == Lookup(server.nads, name)
    ensures name in server.nads ==> name in old(server.nads)
    ensures server.SmoothSince(old(server.calls)) ==> reply.Reply? && server.Stored() == old(server.Stored())
  {
    ghost var o, from, s := Done, server.Past(), State(server.Stored(), server.pc);
    server.IsReached();
    reply, o := server.GetNad(name);
    server.Reaches(server.Stored(), server.calls - 1, |TurnAt(server.script, server.calls - 1).others|);
    if name in server.nads {
      BridgeWasThere(server.start, from.trace, server.trace, s, State(server.Stored(), server.pc), name);
    }
    PutNadNext(server.Stored(), server.pc, name, index, o, reply);
    Called(server, from, server.Stored(), o, AfterFindNad(server.pc, reply));
  }

  method CreateNewNad(server: ApiServer, name: Key, ghost index: nat, nad: Nad) returns (ok: bool)
    requires server.Valid() && server.pc.CreateNad? && AtBridge(server.pc, name, index)
    requires nad == NewNad(server.pc.key, server.pc.lab, index)
    modifies server
    ensures server.Valid() && WentOn(old(server.Past()), server.Past())
    ensures server.pc == BridgeDone(old(server.pc), ok)
    ensures ok ==> name in server.nads && server.nads[name] == nad
    ensures server.SmoothSince(old(server.calls)) && name !in old(server.nads) ==>
              ok && server.Stored() == old(server.Stored()).(nads := old(server.nads)[name := nad])
  {
    ghost var before, o, from := server.Stored(), Done, server.Past();
    ok, before, o := server.CreateNad(name, nad);
    NewNadNext(before, server.pc, name, index, o, server.Stored(), ok);
    Called(server, from, before, o, BridgeDone(server.pc, ok));
  }

  /** createIfNotExistsOrRemove for a bridge: the definition is made without owner, then given the lab. On success the bridge
      stands, and one that is new carries its index as its label. */
  method CreateNadIfNotExists(server: ApiServer, plab: ParsedLab, name: Key, index: nat) returns (ok: bool)
    requires server.Valid() && server.pc.PutNad? && AtBridge(server.pc, name, index) && index <= MaxIndex
    requires server.pc.key == plab.key && server.pc.lab == plab.lab
    modifies server
    ensures server.Valid() && WentOn(old(server.Past()), server.Past())
    ensures server.pc == BridgeDone(old(server.pc), ok)
    ensures ok ==> Stands(server.Stored(), name, plab.lab.uid)
    ensures ok && name !in old(server.nads) ==> LabelIndex(server.nads[name]) == Some(index)
    ensures server.SmoothSince(old(server.calls)) ==>
              BridgeEnsured(old(server.Stored()), server.Stored(), name, plab.lab.uid, index, ok)
  {
    ghost var from := server.Past();
    var target := Nad([], Some(Itoa(index)));
    var owners := SetController(target.owners, LabRef(plab.key, plab.lab));
    assert owners == Some([LabRef(plab.key, plab.lab)]);
    target := target.(owners := owners.value);
    assert target == NewNad(plab.key, plab.lab, index);
    NewNadIndex(plab.key, plab.lab, index);
    var reply := FindNad(server, name, index);
    if reply.Error? {
      return false;
    }
    if reply.value.Some? {
      ok := IsOwnedbyLab(reply.value.value.owners, plab.lab.uid);
    } else {
      ghost var found := server.Past();
      ok := CreateNewNad(server, name, index, target);
      GoesOn(from, found, server.Past());
    }
  }

  method AllocateIndexes(server: ApiServer, plab: ParsedLab, node: string, ghost model: string) returns (indexes: Option<seq<nat>>)
    requires server.Valid() && server.pc.PickNode? && node in server.pc.nodes && server.pc.lab == plab.lab
    requires node in plab.lab.nodes && plab.lab.nodes[node] == Router(model)
    modifies server
    ensures server.Valid() && WentOn(old(server.Past()), server.Past())
    ensures indexes.Some? ==> |indexes.value| == BridgeCount(node) && forall i | i in indexes.value :: i <= MaxIndex
    ensures server.pc == AfterIndexes(old(server.pc), node, model, indexes)
    ensures server.SmoothSince(old(server.calls)) ==>
              server.Stored() == old(server.Stored()) && indexes == IndexesFor(old(server.Stored()), node)
  {
    ghost var from, o := server.Past(), Done;
    indexes, o := GetAvailableBrIndex(server, BridgeCount(node));
    NoIndexesBlock(server.Stored(), plab.key, plab.lab, node, model);
    RouterNext(server.Stored(), server.pc, node, model, o, indexes);
    Recorded(server, from, server.Stored(), ForNode(node, o), AfterIndexes(server.pc, node, model, indexes));
  }

  /** The part of SRVM.Ensure that makes the bridges: none for an integrated chassis, else the fabric, and for
      a MAG-c the data fabric too. On success they stand and are the lab's, unless somebody deleted one meanwhile. When no call
      fails and nobody interferes it succeeds exactly when nothing blocks the bridges, and a new fabric has the least free index. */
  method EnsureBridges(server: ApiServer, plab: ParsedLab, node: string, model: string) returns (ok: bool)
    requires server.Valid() && server.pc.PickNode? && server.pc.key == plab.key && server.pc.lab == plab.lab
    requires node in server.pc.nodes && node in plab.lab.nodes && plab.lab.nodes[node] == Router(model)
    modifies server
    ensures server.Valid() && WentOn(old(server.Past()), server.Past())
    ensures server.pc == if ok then PickNode(plab.key, plab.lab, old(server.pc.used), old(server.pc.nodes) - {node}) else Idle
    ensures ok ==> NodeStandsUnlessDeleted(server.Stored(), plab.key, plab.lab, node, old(server.trace), server.trace)
    ensures server.SmoothSince(old(server.calls)) ==>
              NodeEnsured(old(server.Stored()), server.Stored(), plab.key, plab.lab, node, ok)
  {
    ghost var from, a := server.Past(), server.Stored();
    var indexes := AllocateIndexes(server, plab, node, model);
    NoIndexesBlock(a, plab.key, plab.lab, node, model);
    if indexes.None? {
      return false;
    }
    ok := true;
    if !IsIntegrated(model) {
      ghost var mid := server.Past();
      ok := EnsureFabrics(server, plab, node, model, indexes.value);
      GoesOn(from, mid, server.Past());
      SmoothParts(server.script, from.calls, mid.calls, server.calls);
      if ok {
        NodePassedSince(server.Stored(), plab.key, plab.lab, node, from.trace, mid.trace, server.trace);
      }
    }
  }

  /** The bridges of a router with separate cards, once it has its indexes. */
  method EnsureFabrics(server: ApiServer, plab: ParsedLab, node: string, ghost model: string, indexes: seq<nat>) returns (ok: bool)
    requires server.Valid() && server.pc.PutNad? && server.pc.key == plab.key && server.pc.lab == plab.lab
    requires node in plab.lab.nodes && plab.lab.nodes[node] == Router(model) && !IsIntegrated(model)
    requires |indexes| == BridgeCount(node) && (forall i | i in indexes :: i <= MaxIndex)
    requires server.pc.plan == BridgePlan(plab.key, node, model, indexes)
    modifies server
    ensures server.Valid() && WentOn(old(server.Past()), server.Past())
    ensures server.pc == if ok then PickNode(plab.key, plab.lab, old(server.pc.used), old(server.pc.nodes)) else Idle
    ensures ok ==> NodeStandsUnlessDeleted(server.Stored(), plab.key, plab.lab, node, old(server.trace), server.trace)
    ensures server.SmoothSince(old(server.calls)) && IndexesFor(old(server.Stored()), node) == Some(indexes) ==>
              NodeEnsured(old(server.Stored()), server.Stored(), plab.key, plab.lab, node, ok)
  {
    ghost var from, a := server.Past(), server.Stored();
    assert indexes[0] in indexes;
    ok := CreateNadIfNotExists(server, plab, Key(plab.key.ns, FabricName(plab.key.name, node)), indexes[0]);
    if ok && VmTypeOf(node) == MAGC {
      assert indexes[1] in indexes;
      ghost var b, made := server.Stored(), server.Past();
      ok := EnsureDataFabric(server, plab, node, indexes[1], from);
      SmoothParts(server.script, from.calls, made.calls, server.calls);
      if server.SmoothSince(from.calls) && IndexesFor(a, node) == Some(indexes) {
        DataFabricOutcome(a, b, server.Stored(), plab.key, plab.lab, node, indexes[1], ok);
      }
    } else if server.SmoothSince(from.calls) && IndexesFor(a, node) == Some(indexes) {
      FabricOutcome(a, server.Stored(), plab.key, plab.lab, node, ok);
    }
  }

  /** The data fabric of a MAG-c, after its fabric. */
  method EnsureDataFabric(server: ApiServer, plab: ParsedLab, node: string, index: nat, ghost from: Log) returns (ok: bool)
    requires server.Valid() && server.pc.PutNad? && AtBridge(server.pc, DataFabricKey(plab.key, node), index) && index <= MaxIndex
    requires server.pc.key == plab.key && server.pc.lab == plab.lab && WentOn(from, server.Past())
    requires Stands(server.Stored(), FabricKey(plab.key, node), plab.lab.uid)
    modifies server
    ensures server.Valid() && WentOn(from, server.Past()) && old(server.calls) <= server.calls
    ensures server.pc == BridgeDone(old(server.pc), ok)
    ensures StandsUnlessDeleted(server.Stored(), FabricKey(plab.key, node), plab.lab.uid, from.trace, server.trace)
    ensures ok ==> Stands(server.Stored(), DataFabricKey(plab.key, node), plab.lab.uid)
    ensures server.SmoothSince(old(server.calls)) ==>
              BridgeEnsured(old(server.Stored()), server.Stored(), DataFabricKey(plab.key, node), plab.lab.uid, index, ok)
  {
    ghost var mid, before := server.Past(), State(server.Stored(), server.pc);
    server.IsReached();
    ok := CreateNadIfNotExists(server, plab, Key(plab.key.ns, DataFabricName(plab.key.name, node)), index);
    server.IsReached();
    GoesOn(from, mid, server.Past());
    StandsLater(server.start, mid.trace, server.trace, before, State(server.Stored(), server.pc), FabricKey(plab.key, node), plab.lab.uid);
    DeletedSince(from.trace, mid.trace, server.trace, DeleteNad(FabricKey(plab.key, node)));
  }

  /** Ensure of one node. What comes after the bridges, the virtual machine or pod, may fail: `machine`. */
  method Ensure(server: ApiServer, plab: ParsedLab, node: string, machine: bool) returns (ok: bool, ghost bridged: bool)
    requires server.Valid() && server.pc.PickNode? && server.pc.key == plab.key && server.pc.lab == plab.lab
    requires node in server.pc.nodes && node in plab.lab.nodes
    modifies server
    ensures server.Valid() && WentOn(old(server.Past()), server.Past())
    ensures server.pc == if bridged then PickNode(plab.key, plab.lab, old(server.pc.used), old(server.pc.nodes) - {node}) else Idle
    ensures ok == (bridged && machine)
    ensures bridged ==> NodeStandsUnlessDeleted(server.Stored(), plab.key, plab.lab, node, old(server.trace), server.trace)
    ensures server.SmoothSince(old(server.calls)) ==>
              if plab.lab.nodes[node].Router? then NodeEnsured(old(server.Stored()), server.Stored(), plab.key, plab.lab, node, bridged)
              else bridged && server.Stored() == old(server.Stored())
  {
    match plab.lab.nodes[node]
    case OtherNode =>
      OtherNodeNext(server.Stored(), server.pc, node);
      server.Note(ForNode(node, Done));
      ok, bridged := machine, true;
    case Router(model) =>
      ok := EnsureBridges(server, plab, node, model);
      bridged := ok;
      ok := ok && machine;
  }

  /** The node loop of Reconcile, in whatever order the map yields the nodes; `failing` are those whose virtual machine or pod
      cannot be had. It ends with every node passed, at a call that failed or was refused, or at a node in `failing`. The bridges
      of the nodes passed stand, unless somebody deleted one. */
  method EnsureNodes(server: ApiServer, plab: ParsedLab, failing: set<string>) returns (ok: bool)
    requires server.Valid() && server.pc.PickNode? && server.pc.key == plab.key && server.pc.lab == plab.lab
    requires server.pc.nodes == plab.lab.nodes.Keys
    modifies server
    ensures server.Valid() && WentOn(old(server.Past()), server.Past())
    ensures server.pc.Idle? || (server.pc.PickNode? && server.pc.key == plab.key && server.pc.lab == plab.lab)
    ensures ok ==> server.pc == PickNode(plab.key, plab.lab, old(server.pc.used), {})
    ensures !ok && server.pc.PickNode? ==> exists node :: node in failing && node in plab.lab.nodes && node !in server.pc.nodes
    ensures server.pc.PickNode? ==> forall node | node in plab.lab.nodes && node !in server.pc.nodes ::
              NodeStandsUnlessDeleted(server.Stored(), plab.key, plab.lab, node, old(server.trace), server.trace)
    ensures server.SmoothSince(old(server.calls)) ==>
              && OnlyBridges(old(server.Stored()), server.Stored())
              && (ok ==> NodesStand(server.Stored(), plab.key, plab.lab))
              && (server.pc.Idle? ==> SomeNodeBlocked(server.Stored(), plab.key, plab.lab))
  {
    ghost var from, used, a := server.Past(), server.pc.used, server.Stored();
    var todo := plab.lab.nodes.Keys;
    while todo != {}
      invariant todo <= plab.lab.nodes.Keys && server.Valid() && WentOn(from, server.Past())
      invariant server.pc == PickNode(plab.key, plab.lab, used, todo)
      invariant NodesPassed(server.Stored(), plab.key, plab.lab, todo, from.trace, server.trace)
      invariant server.SmoothSince(from.calls) ==> OnlyBridges(a, server.Stored()) && NodesDone(server.Stored(), plab.key, plab.lab, todo)
      decreases todo
    {
      var node :| node in todo;
      ghost var mid, bridged, b, at := server.Past(), true, server.Stored(), server.pc;
      server.IsReached();
      ok, bridged := Ensure(server, plab, node, node !in failing);
      server.IsReached();
      GoesOn(from, mid, server.Past());
      if bridged {
        NodesPassedStep(server.start, from.trace, mid.trace, server.trace, State(b, at), State(server.Stored(), server.pc),
                        plab.key, plab.lab, todo, node);
      }
      NodeTurn(server.script, from, mid, server.Past(), a, b, server.Stored(), plab.key, plab.lab, todo, node, bridged);
      if !ok {
        return;
      }
      todo := todo - {node};
    }
    ok := true;
  }

  // ---- tear-down ----

  method LookUpLan(server: ApiServer, link: string, name: Key) returns (reply: Reply<Option<Lan>>)
    requires server.Valid() && server.pc.PickLink? && link in server.pc.todo && name == LanKey(server.pc.key, link)
    modifies server
    ensures server.Valid() && WentOn(old(server.Past()), server.Past())
    ensures server.pc == if reply.Error? then Idle
                         else UpdateLan(old(server.pc.key), old(server.pc.lab), old(server.pc.todo), link, reply.value)
    ensures server.SmoothSince(old(server.calls)) ==>
              server.Stored() == old(server.Stored()) && reply == Reply(Lookup(old(server.lans), name))
  {
    ghost var from, o := server.Past(), Done;
    reply, o := server.GetLan(name);
    LookUpNext(server.Stored(), server.pc, link, name, o, reply);
    Recorded(server, from, server.Stored(), ForLink(link, o),
             if reply.Error? then Idle else UpdateLan(server.pc.key, server.pc.lab, server.pc.todo, link, reply.value));
  }

  /** The finalizer is taken off whatever was read, found or not, and the object is written back. */
  method StripLan(server: ApiServer, name: Key, found: Option<Lan>) returns (ok: bool)
    requires server.Valid() && server.pc.UpdateLan? && server.pc.found == found && name == LanKey(server.pc.key, server.pc.link)
    modifies server
    ensures server.Valid() && WentOn(old(server.Past()), server.Past())
    ensures server.pc == if ok then NextLink(old(server.pc.key), old(server.pc.lab), old(server.pc.todo) - {old(server.pc.link)})
                         else Idle
    ensures server.SmoothSince(old(server.calls)) && found == Lookup(old(server.lans), name) ==>
              LanStrippedAt(old(server.Stored()), server.Stored(), name, ok)
  {
    ghost var before, o, from := server.Stored(), Done, server.Past();
    var finalizers := if found.Some? then found.value.finalizers - {FinalizerName} else {};
    ok, before, o := server.UpdateLan(name, found, finalizers);
    UpdateLanNext(before, server.pc, name, o, server.Stored(), ok);
    Called(server, from, before, o,
           if ok then NextLink(server.pc.key, server.pc.lab, server.pc.todo - {server.pc.link}) else Idle);
  }

  /** deleteExternalResources, in whatever order the map yields the links. When no call fails and nobody interferes it succeeds
      exactly when every link has a LAN under its name, and takes off nothing but the lab finalizer, of nothing but those. */
  method DeleteExternalResources(server: ApiServer, key: Key, lab: Lab) returns (ok: bool)
    requires server.Valid() && server.pc == NextLink(key, lab, lab.links.Keys)
    modifies server
    ensures server.Valid() && WentOn(old(server.Past()), server.Past())
    ensures server.pc == if ok then DropFinalizer(key, lab) else Idle
    ensures server.SmoothSince(old(server.calls)) ==>
              && (ok <==> LansPresent(old(server.Stored()), key, lab))
              && (ok ==> LansReleased(old(server.Stored()), server.Stored(), key, lab.links.Keys))
  {
    ghost var from, a := server.Past(), server.Stored();
    var todo := lab.links.Keys;
    NothingStripped(a, key, todo);
    while todo != {}
      invariant todo <= lab.links.Keys && server.Valid() && WentOn(from, server.Past())
      invariant server.pc == NextLink(key, lab, todo)
      invariant server.SmoothSince(from.calls) ==> LansReleased(a, server.Stored(), key, lab.links.Keys - todo)
      decreases todo
    {
      var link :| link in todo;
      var name := LanKey(key, link);
      ghost var mid, b := server.Past(), server.Stored();
      var reply := LookUpLan(server, link, name);
      GoesOn(from, mid, server.Past());
      ghost var read, r := server.Past(), server.Stored();
      if reply.Error? {
        NotSmooth(server.script, from.calls, mid.calls, server.calls);
        return false;
      }
      ok := StripLan(server, name, reply.value);
      GoesOn(from, read, server.Past());
      StripTurn(server.script, from, mid, read, server.Past(), a, b, r, server.Stored(), key, lab, todo, link, reply.value, ok);
      if !ok {
        return;
      }
      todo := todo - {link};
    }
    ok := true;
    assert lab.links.Keys - {} == lab.links.Keys;
  }

  // ---- Reconcile ----

  /** The history of one reconcile, from a to b: the lab is read, with outcome Done, the reconcile is begun at `began` and goes
      on, call by call, to `ended`, where the state machine has come to its end or the reconcile stops. */
  ghost predicate OneReconcile(key: Key, a: Log, began: Log, ended: Log, b: Log) {
    && AskedOnce(a, began, Done)
    && WentOn(began.(trace := began.trace + [Start(key)]), ended)
    && b.calls == ended.calls && (b.trace == ended.trace || b.trace == ended.trace + [Stop])
  }

  /** From a to b others acted, and one call was made, with outcome o. */
  ghost predicate AskedOnce(a: Log, b: Log, o: Outcome) {
    && b.trace != [] && b.trace[|b.trace| - 1] == Call(o)
    && Interfered(a.trace, b.trace[..|b.trace| - 1]) && b.calls == a.calls + 1
  }

  /** The lab could not be read, and nothing was done. */
  ghost predicate Unread(a: Log, b: Log) { exists o: Outcome :: !o.Done? && AskedOnce(a, b, o) }

  /** The update of a lab's finalizers. */
  method WriteFinalizers(server: ApiServer, finalizers: set<string>, key: Key, lab: Lab) returns (ok: bool)
    requires server.Valid() && (server.pc.AddFinalizer? || server.pc.DropFinalizer?) && server.pc.key == key && server.pc.lab == lab
    requires finalizers == if server.pc.AddFinalizer? then lab.finalizers + {FinalizerName} else lab.finalizers - {FinalizerName}
    modifies server
    ensures server.Valid() && WentOn(old(server.Past()), server.Past())
    ensures server.pc == if ok && old(server.pc.AddFinalizer?) then ListVnis(key, lab.(finalizers := finalizers)) else Idle
    ensures ok && key in server.labs ==> server.labs[key].finalizers == finalizers
    ensures server.SmoothSince(old(server.calls)) && key in old(server.labs) && old(server.labs)[key] == lab ==>
              && ok
              && server.Stored() == old(server.Stored()).(labs := StoreLab(old(server.labs), key, lab.(finalizers := finalizers)))
  {
    ghost var before, o, from := server.Stored(), Done, server.Past();
    ok, before, o := server.UpdateLab(key, lab, finalizers);
    FinalizerNext(before, server.pc, o, server.Stored(), ok, finalizers);
    Called(server, from, before, o,
           if ok && server.pc.AddFinalizer? then ListVnis(key, lab.(finalizers := finalizers)) else Idle);
  }

  /** Where a reconcile begins when it has read this for the lab. */
  ghost function BeginWith(key: Key, found: Option<Lab>): Pc {
    if found.None? then Idle
    else
      var lab := found.value;
      if !lab.deleting then if FinalizerName in lab.finalizers then ListVnis(key, lab) else AddFinalizer(key, lab)
      else if FinalizerName in lab.finalizers then NextLink(key, lab, lab.links.Keys) else Idle
  }

  ghost method Begun(server: ApiServer, key: Key)
    requires server.Valid() && server.pc.Idle?
    modifies server`trace, server`history, server`pc
    ensures server.Valid() && server.trace == old(server.trace) + [Start(key)] && server.pc == Begin(server.Stored(), key)
  {
    server.Note(Start(key));
  }

  ghost method Stopped(server: ApiServer)
    requires server.Valid()
    modifies server`trace, server`history, server`pc
    ensures server.Valid() && server.trace == old(server.trace) + [Stop] && server.pc.Idle?
    ensures server.history == old(server.history) + [Moment(State(server.Stored(), Idle), server.calls, 0)]
  {
    server.Note(Stop);
  }

  /** Where a reconcile that ensures a lab may stop of its own accord: with all nodes passed, or at one whose machine or pod cannot
      be had. The bridges of the nodes passed since `from` stand, unless somebody deleted one. */
  ghost predicate StopsAt(api: Api, pc: Pc, failing: set<string>, from: seq<Event>, now: seq<Event>) {
    && pc.PickNode?
    && (pc.nodes == {} || exists node :: node in failing && node in pc.lab.nodes && node !in pc.nodes)
    && forall node | node in pc.lab.nodes && node !in pc.nodes :: NodeStandsUnlessDeleted(api, pc.key, pc.lab, node, from, now)
  }

  lemma StopsSince(api: Api, pc: Pc, failing: set<string>, a: seq<Event>, b: seq<Event>, c: seq<Event>)
    requires a <= b <= c && StopsAt(api, pc, failing, b, c)
    ensures StopsAt(api, pc, failing, a, c)
  {
    forall node | node in pc.lab.nodes && node !in pc.nodes
      ensures NodeStandsUnlessDeleted(api, pc.key, pc.lab, node, a, c)
    {
      NodePassedSince(api, pc.key, pc.lab, node, a, b, c);
    }
  }

  /** The nodes of a lab, after which the reconcile stops. */
  method EnsureNodesAndStop(server: ApiServer, plab: ParsedLab, failing: set<string>) returns (ghost ended: Log)
    requires server.Valid() && server.pc.PickNode? && server.pc.key == plab.key && server.pc.lab == plab.lab
    requires server.pc.nodes == plab.lab.nodes.Keys
    modifies server
    ensures server.Valid() && server.pc.Idle? && WentOn(old(server.Past()), ended) && ended.calls == server.calls
    ensures server.trace == ended.trace || server.trace == ended.trace + [Stop]
    ensures server.trace == ended.trace + [Stop] ==>
              |ended.trace| < |server.history|
              && StopsAt(server.Stored(), server.history[|ended.trace|].state.pc, failing, old(server.trace), ended.trace)
    ensures server.SmoothSince(old(server.calls)) ==>
              && OnlyBridges(old(server.Stored()), server.Stored())
              && (failing !! plab.lab.nodes.Keys ==>
                    NodesStand(server.Stored(), plab.key, plab.lab) || SomeNodeBlocked(server.Stored(), plab.key, plab.lab))
  {
    ghost var from := server.trace;
    var ok := EnsureNodes(server, plab, failing);
    ended := server.Past();
    if !server.pc.Idle? {
      assert StopsAt(server.Stored(), server.pc, failing, from, server.trace);
      assert server.history[|server.trace|].state.pc == server.pc;
      Stopped(server);
    }
  }

  /** Ensuring the links and nodes of a lab that is not being deleted. */
  method EnsureLab(server: ApiServer, plab: ParsedLab, failing: set<string>) returns (ghost ended: Log)
    requires server.Valid() && server.pc == ListVnis(plab.key, plab.lab) && plab.Maps() == S.NoMaps
    modifies server, plab
    ensures server.Valid() && server.pc.Idle? && WentOn(old(server.Past()), ended) && ended.calls == server.calls
    ensures server.trace == ended.trace || server.trace == ended.trace + [Stop]
    ensures server.trace == ended.trace + [Stop] ==>
              |ended.trace| < |server.history|
              && StopsAt(server.Stored(), server.history[|ended.trace|].state.pc, failing, old(server.trace), ended.trace)
    ensures server.SmoothSince(old(server.calls)) && Inv(State(old(server.Stored()), old(server.pc))) ==>
              Available(old(server.Stored()), plab.key, plab.lab) ==> LabEnsured(server.Stored(), plab.key, plab.lab, failing)
  {
    ghost var from, used, a, first := server.Past(), [], server.Stored(), server.pc;
    var ok;
    ok, used := EnsureLinks(server, plab);
    ended := server.Past();
    if ok {
      ghost var mid, b := server.Past(), server.Stored();
      ended := EnsureNodesAndStop(server, plab, failing);
      GoesOn(from, mid, ended);
      LabTurn(server.script, from, mid, server.Past(), a, first, b, server.Stored(), plab.key, plab.lab, failing);
      if server.trace == ended.trace + [Stop] {
        StopsSince(server.Stored(), server.history[|ended.trace|].state.pc, failing, from.trace, mid.trace, ended.trace);
      }
    }
  }

  /** A lab that is not being deleted: the finalizer is added if it is missing, then the lab is ensured. */
  method EnsureFrom(server: ApiServer, key: Key, read: Lab, failing: set<string>) returns (err: bool, ghost ended: Log)
    requires server.Valid() && !read.deleting
    requires server.pc == if FinalizerName in read.finalizers then ListVnis(key, read) else AddFinalizer(key, read)
    modifies server
    ensures server.Valid() && server.pc.Idle? && WentOn(old(server.Past()), ended) && ended.calls == server.calls
    ensures server.trace == ended.trace || server.trace == ended.trace + [Stop]
    ensures server.trace == ended.trace + [Stop] ==>
              |ended.trace| < |server.history|
              && StopsAt(server.Stored(), server.history[|ended.trace|].state.pc, failing, old(server.trace), ended.trace)
    ensures err ==> FinalizerName !in read.finalizers
    ensures server.SmoothSince(old(server.calls)) && Inv(State(old(server.Stored()), old(server.pc)))
            && key in old(server.labs) && old(server.labs)[key] == read ==>
              && !err
              && (Available(old(server.Stored()), key, read) ==> LabEnsured(server.Stored(), key, read, failing))
  {
    ghost var from, a, first := server.Past(), server.Stored(), server.pc;
    server.IsReached();
    var lab := read;
    if FinalizerName !in lab.finalizers {
      var finalizers := lab.finalizers + {FinalizerName};
      var ok := WriteFinalizers(server, finalizers, key, lab);
      ended := server.Past();
      if !ok {
        return true, ended;
      }
      lab := lab.(finalizers := finalizers);
    }
    ghost var mid, b := server.Past(), server.Stored();
    server.IsReached();
    var plab := new ParsedLab(key, lab);
    ended := EnsureLab(server, plab, failing);
    GoesOn(from, mid, ended);
    if server.trace == ended.trace + [Stop] {
      StopsSince(server.Stored(), server.history[|ended.trace|].state.pc, failing, from.trace, mid.trace, ended.trace);
    }
    err := false;
    SmoothParts(server.script, from.calls, mid.calls, server.calls);
    if server.SmoothSince(from.calls) && Inv(State(a, first)) {
      InvLater(server.start, from.trace, mid.trace, State(a, first), State(b, ListVnis(key, lab)));
      SameButFinalizers(a, b, key, read, lab.finalizers, failing);
      SameButFinalizers(a, server.Stored(), key, read, lab.finalizers, failing);
    }
  }

  /** A lab that is being deleted and carries the finalizer: its LANs are released, then the lab. */
  method TearDown(server: ApiServer, key: Key, lab: Lab) returns (err: bool)
    requires server.Valid() && server.pc == NextLink(key, lab, lab.links.Keys)
    modifies server
    ensures server.Valid() && server.pc.Idle? && WentOn(old(server.Past()), server.Past())
    ensures !err && key in server.labs ==> FinalizerName !in server.labs[key].finalizers
    ensures server.SmoothSince(old(server.calls)) && key in old(server.labs) && old(server.labs)[key] == lab ==>
              && (err <==> !LansPresent(old(server.Stored()), key, lab))
              && (!err ==> TornDown(old(server.Stored()), server.Stored(), key, lab))
  {
    ghost var from := server.Past();
    var ok := DeleteExternalResources(server, key, lab);
    if !ok {
      return true;
    }
    ghost var mid := server.Past();
    ok := WriteFinalizers(server, lab.finalizers - {FinalizerName}, key, lab);
    GoesOn(from, mid, server.Past());
    SmoothParts(server.script, from.calls, mid.calls, server.calls);
    err := !ok;
  }

  method Read(server: ApiServer, key: Key) returns (reply: Reply<Option<Lab>>, ghost began: Log)
    requires server.Valid() && server.pc.Idle?
    modifies server
    ensures server.Valid() && server.pc.Idle? && began == server.Past()
    ensures if reply.Error? then Unread(old(server.Past()), began) else AskedOnce(old(server.Past()), began, Done)
    ensures reply.Reply? ==> reply.value == Lookup(server.labs, key)
    ensures server.SmoothSince(old(server.calls)) ==> reply.Reply? && server.Stored() == old(server.Stored())
  {
    ghost var o, first := Done, server.Past();
    reply, o := server.GetLab(key);
    ghost var asked := server.trace;
    server.Record(server.Stored(), Call(o));
    began := server.Past();
    assert began.trace[..|began.trace| - 1] == asked;
    assert AskedOnce(first, began, o);
  }

  lemma BeginInv(api: Api, key: Key)
    ensures Inv(State(api, Idle)) ==> Inv(State(api, Begin(api, key)))
  {
    if Inv(State(api, Idle)) {
      NextKeeps(State(api, Idle), Start(key));
    }
  }

  /** What Reconcile does with the lab it has read. */
  method Proceed(server: ApiServer, key: Key, found: Option<Lab>, failing: set<string>) returns (err: bool, ghost ended: Log)
    requires server.Valid() && server.pc == BeginWith(key, found)
    modifies server
    ensures server.Valid() && server.pc.Idle? && WentOn(old(server.Past()), ended) && ended.calls == server.calls
    ensures server.trace == ended.trace || server.trace == ended.trace + [Stop]
    ensures server.trace == ended.trace + [Stop] ==>
              |ended.trace| < |server.history|
              && StopsAt(server.Stored(), server.history[|ended.trace|].state.pc, failing, old(server.trace), ended.trace)
    ensures old(server.pc).Idle? ==> server.Stored() == old(server.Stored())
    ensures found.Some? && found.value.deleting && FinalizerName in found.value.finalizers && !err && key in server.labs ==>
              FinalizerName !in server.labs[key].finalizers
    ensures err ==> found.Some? && (found.value.deleting <==> FinalizerName in found.value.finalizers)
    ensures server.SmoothSince(old(server.calls)) && Inv(State(old(server.Stored()), old(server.pc)))
            && found == Lookup(old(server.labs), key) ==>
              Reconciled(old(server.Stored()), server.Stored(), key, failing, err)
  {
    err, ended := false, server.Past();
    if found.Some? {
      var lab := found.value;
      if !lab.deleting {
        err, ended := EnsureFrom(server, key, lab, failing);
      } else if FinalizerName in lab.finalizers {
        err := TearDown(server, key, lab);
        ended := server.Past();
      }
    }
  }

  /** Reconcile. The lab in memory is the one read, with the finalizer once that is added; `failing` are the nodes whose machine or
      pod cannot be had. */
  method Reconcile(server: ApiServer, key: Key, failing: set<string>)
    returns (err: bool, ghost read: Reply<Option<Lab>>, ghost began: Log, ghost ended: Log)
    requires server.Valid() && server.pc.Idle?
    modifies server
    ensures server.Valid() && server.pc.Idle?
    ensures read.Error? ==> err && Unread(old(server.Past()), server.Past())
    // Otherwise it is one reconcile of the state machine, carried through to its end.
    ensures read.Reply? ==> OneReconcile(key, old(server.Past()), began, ended, server.Past())
    ensures read.Reply? && server.trace == ended.trace + [Stop] ==>
              |ended.trace| < |server.history|
              && StopsAt(server.Stored(), server.history[|ended.trace|].state.pc, failing, began.trace, ended.trace)
    // No error for a lab that is being deleted means that its finalizer is off.
    ensures read.Reply? && read.value.Some? && read.value.value.deleting && !err && key in server.labs ==>
              FinalizerName !in server.labs[key].finalizers
    ensures read.Reply? && err ==> read.value.Some? && (read.value.value.deleting <==> FinalizerName in read.value.value.finalizers)
    // What it comes to when no call fails and nobody interferes.
    ensures server.SmoothSince(old(server.calls)) && Inv(State(old(server.Stored()), Idle)) ==>
              Reconciled(old(server.Stored()), server.Stored(), key, failing, err)
  {
    ghost var first := server.Past();
    var reply;
    reply, began := Read(server, key);
    read, ended := reply, began;
    if reply.Error? {
      return true, read, began, ended;
    }
    ghost var b := server.Stored();
    Begun(server, key);
    ghost var mid := server.Past();
    err, ended := Proceed(server, key, reply.value, failing);
    BeginInv(b, key);
    SmoothParts(server.script, first.calls, mid.calls, server.calls);
    if server.trace == ended.trace + [Stop] {
      StopsSince(server.Stored(), server.history[|ended.trace|].state.pc, failing, began.trace, mid.trace, ended.trace);
    }
  }

  /** What the reconciles of any history leave behind is a state the cluster invariant holds in: VNIs and bridge
      indexes are distinct, a lab's LANs carry its links' spokes, and finalizers are backed by their lab. */
  lemma ServerIsSafe(server: ApiServer)
    requires server.Valid() && Init(server.start)
    ensures Inv(State(server.Stored(), server.pc))
  {
    server.IsReached();
    InitInv(server.start);
    RunKeeps(server.start, server.trace);
  }
}

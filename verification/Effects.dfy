/** What the controller's operations come to when no call fails and nobody interferes, as relations between what is stored
    before and after. */
module Effects {
  import opened Wrappers
  import opened Text
  import opened Names
  import opened Allocator
  import opened Cluster
  import opened ClusterInvariant
  import opened ClusterSteps
  import opened Bridges
  import opened Server
  import opened CallSteps

  // ---- one link ----

  /** No LAN of somebody else stands under the name of the link. */
  ghost predicate LinkAvailable(api: Api, key: Key, lab: Lab, link: string) {
    LanKey(key, link) in api.lans ==> OwnedBy(api.lans[LanKey(key, link)].owners, lab.uid)
  }

  /** Enough VNIs are free, and no link's LAN name is taken by somebody else's LAN. */
  ghost predicate Available(api: Api, key: Key, lab: Lab) {
    |Free(UsedVnis(api.lans))| >= |lab.links| && forall link | link in lab.links :: LinkAvailable(api, key, lab, link)
  }

  ghost predicate LanAdded(a: Api, b: Api, name: Key, lan: Lan) {
    b == a.(lans := a.lans[name := lan.(uid := a.nextUid)], nextUid := a.nextUid + 1)
  }

  /** Get-or-create under a name: what is there stays and must be the lab's; else `lan` is created, unless it was read from the
      server. */
  ghost predicate LanGotOrCreated(a: Api, b: Api, name: Key, uid: nat, lan: Lan, stored: bool, ok: bool) {
    if name in a.lans then b == a && ok == OwnedBy(a.lans[name].owners, uid)
    else if stored then b == a && !ok
    else ok && LanAdded(a, b, name, lan)
  }

  /** The same after the lab has been set as the owner of `target`, which may be refused. */
  ghost predicate LanOwnedAndCreated(a: Api, b: Api, name: Key, key: Key, lab: Lab, target: Lan, stored: bool, ok: bool) {
    match SetController(target.owners, LabRef(key, lab))
    case None => b == a && !ok
    case Some(owners) => LanGotOrCreated(a, b, name, lab.uid, target.(owners := owners), stored, ok)
  }

  /** A link is ensured exactly when no LAN of somebody else has its name; then its LAN stands, and nothing else changes. */
  ghost predicate LinkEnsured(a: Api, b: Api, name: Key, uid: nat, ok: bool) {
    && ok == (name in a.lans ==> OwnedBy(a.lans[name].owners, uid))
    && b.labs == a.labs && b.nads == a.nads
    && (forall k | k in a.lans :: k in b.lans && b.lans[k] == a.lans[k])
    && (forall k | k in b.lans && k !in a.lans :: k == name)
    && (ok ==> name in b.lans && OwnedBy(b.lans[name].owners, uid))
  }

  lemma LabIsAccepted(key: Key, lab: Lab, owners: seq<Owner>)
    requires owners == [] || owners == [LabRef(key, lab)]
    ensures SetController(owners, LabRef(key, lab)) == Some([LabRef(key, lab)])
    ensures OwnedBy([LabRef(key, lab)], lab.uid)
  {
    var ref := LabRef(key, lab);
    assert [ref][0].uid == lab.uid;
    if owners != [] {
      assert ControllerOf(owners) == Some(ref);
      assert Upsert(owners, ref) == [ref] + owners[1..] == [ref];
    }
  }

  lemma OwnedIsOurs(api: Api, key: Key, lab: Lab, name: Key)
    requires OwnedLans(api) && Live(api, key, lab) && name in api.lans && OwnedBy(api.lans[name].owners, lab.uid)
    ensures api.lans[name].owners == [LabRef(key, lab)]
  {
    assert IsLanOf(key, api.labs[key], name, api.lans[name]);
  }

  lemma LinkFollows(a: Api, b: Api, key: Key, lab: Lab, name: Key, target: Lan, ok: bool)
    requires OwnedLans(a) && Live(a, key, lab)
    requires target.owners == if name in a.lans then a.lans[name].owners else []
    requires LanOwnedAndCreated(a, b, name, key, lab, target, name in a.lans, ok)
    ensures LinkEnsured(a, b, name, lab.uid, ok)
  {
    if name !in a.lans {
      LabIsAccepted(key, lab, []);
    } else if OwnedBy(a.lans[name].owners, lab.uid) {
      OwnedIsOurs(a, key, lab, name);
      LabIsAccepted(key, lab, target.owners);
    }
  }

  // ---- all links ----

  /** The first i links have been ensured. */
  ghost predicate LinksEnsured(a: Api, b: Api, key: Key, lab: Lab, i: nat) {
    && i <= |LinkNames(lab)| && b.labs == a.labs && b.nads == a.nads
    && (forall k | k in a.lans :: k in b.lans && b.lans[k] == a.lans[k])
    && (forall k | k in b.lans && k !in a.lans :: exists j :: 0 <= j < i && k == LanKey(key, LinkNames(lab)[j]))
    && (forall j | 0 <= j < i :: LinkStands(a, b, key, lab, LinkNames(lab)[j]))
  }

  ghost predicate LinkStands(a: Api, b: Api, key: Key, lab: Lab, link: string) {
    && LinkAvailable(a, key, lab, link)
    && LanKey(key, link) in b.lans && OwnedBy(b.lans[LanKey(key, link)].owners, lab.uid)
  }

  lemma LinksEnsuredStep(a: Api, b: Api, c: Api, key: Key, lab: Lab, i: nat)
    requires LinksEnsured(a, b, key, lab, i) && i < |LinkNames(lab)|
    requires LinkEnsured(b, c, LanKey(key, LinkNames(lab)[i]), lab.uid, true)
    ensures LinksEnsured(a, c, key, lab, i + 1)
  {
    forall k | k in c.lans && k !in a.lans
      ensures exists j :: 0 <= j < i + 1 && k == LanKey(key, LinkNames(lab)[j])
    {
      if k in b.lans {
        var j :| 0 <= j < i && k == LanKey(key, LinkNames(lab)[j]);
      } else {
        assert k == LanKey(key, LinkNames(lab)[i]);
      }
    }
    assert LinkStands(a, c, key, lab, LinkNames(lab)[i]);
    forall j | 0 <= j < i
      ensures LinkStands(a, c, key, lab, LinkNames(lab)[j])
    {
      assert LinkStands(a, b, key, lab, LinkNames(lab)[j]);
    }
  }

  /** A link that cannot be ensured could not be at the start. */
  lemma LinkRefused(a: Api, b: Api, c: Api, key: Key, lab: Lab, i: nat)
    requires LinksEnsured(a, b, key, lab, i) && i < |LinkNames(lab)|
    requires LinkEnsured(b, c, LanKey(key, LinkNames(lab)[i]), lab.uid, false)
    ensures !Available(a, key, lab)
  {
    LinkNamesDistinct(lab);
    var name := LanKey(key, LinkNames(lab)[i]);
    if name !in a.lans {
      var j :| 0 <= j < i && name == LanKey(key, LinkNames(lab)[j]);
      LanKeyInjective(key, LinkNames(lab)[j], LinkNames(lab)[i]);
    }
    assert !LinkAvailable(a, key, lab, LinkNames(lab)[i]);
  }

  lemma AllLinksEnsured(a: Api, b: Api, key: Key, lab: Lab)
    requires LinksEnsured(a, b, key, lab, |LinkNames(lab)|) && |Free(UsedVnis(a.lans))| >= |lab.links|
    ensures Available(a, key, lab) && LinksStand(b, key, lab)
  {
    LinkNamesDistinct(lab);
    forall link | link in lab.links
      ensures LinkStands(a, b, key, lab, link)
    {
      LinkHasNumber(lab, link);
      var j :| 0 <= j < |LinkNames(lab)| && LinkNames(lab)[j] == link;
    }
  }

  lemma LinkHasNumber(lab: Lab, link: string)
    requires link in lab.links
    ensures exists j :: 0 <= j < |LinkNames(lab)| && LinkNames(lab)[j] == link
  {
    assert link in Elems(LinkNames(lab));
  }

  /** Every link of the lab has its LAN. */
  ghost predicate LinksStand(api: Api, key: Key, lab: Lab) {
    forall link | link in lab.links :: LanKey(key, link) in api.lans && OwnedBy(api.lans[LanKey(key, link)].owners, lab.uid)
  }

  /** What the loop over the links has come to after i links, when no call failed and nobody interfered. */
  ghost predicate LinksSoFar(script: Script, from: Log, now: Log, a: Api, first: Pc, b: Api, key: Key, lab: Lab, i: nat) {
    Smooth(script, from.calls, now.calls) && Inv(State(a, first)) ==>
      |Free(UsedVnis(a.lans))| >= |lab.links| && LinksEnsured(a, b, key, lab, i)
  }

  /** What EnsureLinks comes to. */
  ghost predicate LinksOutcome(script: Script, from: Log, now: Log, a: Api, first: Pc, b: Api, key: Key, lab: Lab, ok: bool) {
    Smooth(script, from.calls, now.calls) && Inv(State(a, first)) ==>
      && (ok <==> Available(a, key, lab))
      && (ok ==> LinksEnsured(a, b, key, lab, |LinkNames(lab)|))
  }

  lemma LinksBegin(script: Script, from: Log, now: Log, a: Api, first: Pc, b: Api, key: Key, lab: Lab, ok: bool)
    requires Smooth(script, from.calls, now.calls) ==> b == a && (ok <==> |Free(UsedVnis(a.lans))| >= |lab.links|)
    ensures if ok then LinksSoFar(script, from, now, a, first, b, key, lab, 0)
            else LinksOutcome(script, from, now, a, first, b, key, lab, false)
  {
  }

  lemma LinksEnd(script: Script, from: Log, now: Log, a: Api, first: Pc, b: Api, key: Key, lab: Lab)
    requires LinksSoFar(script, from, now, a, first, b, key, lab, |LinkNames(lab)|)
    ensures LinksOutcome(script, from, now, a, first, b, key, lab, true)
  {
    if Smooth(script, from.calls, now.calls) && Inv(State(a, first)) {
      AllLinksEnsured(a, b, key, lab);
    }
  }

  /** One turn of the loop over the links: either one link more is ensured, or the lab could not be. */
  lemma LinkTurn(script: Script, from: Log, mid: Log, now: Log, start: State, a: Api, first: Pc, b: Api, at: Pc, c: Api,
                 key: Key, lab: Lab, i: nat, ok: bool)
    requires from.calls <= mid.calls <= now.calls && from.trace <= mid.trace
    requires Run(start, from.trace) == State(a, first) && Run(start, mid.trace) == State(b, at)
    requires i < |LinkNames(lab)| && LinksSoFar(script, from, mid, a, first, b, key, lab, i)
    requires Smooth(script, mid.calls, now.calls) && Inv(State(b, at)) ==>
               LinkEnsured(b, c, LanKey(key, LinkNames(lab)[i]), lab.uid, ok)
    ensures if ok then LinksSoFar(script, from, now, a, first, c, key, lab, i + 1)
            else LinksOutcome(script, from, now, a, first, c, key, lab, false)
  {
    if Smooth(script, from.calls, now.calls) && Inv(State(a, first)) {
      SmoothParts(script, from.calls, mid.calls, now.calls);
      InvLater(start, from.trace, mid.trace, State(a, first), State(b, at));
      if ok {
        LinksEnsuredStep(a, b, c, key, lab, i);
      } else {
        LinkRefused(a, b, c, key, lab, i);
      }
    }
  }

  // ---- bridges ----

  ghost predicate Foreign(api: Api, name: Key, uid: nat) { name in api.nads && !OwnedBy(api.nads[name].owners, uid) }

  /** A bridge is ensured exactly when none of somebody else has its name. A new one carries its index and is the lab's. */
  ghost predicate BridgeEnsured(a: Api, b: Api, name: Key, uid: nat, index: nat, ok: bool) {
    && ok == !Foreign(a, name, uid)
    && if name in a.nads then b == a else BridgeAdded(a, b, name, uid, index)
  }

  ghost predicate BridgeAdded(a: Api, b: Api, name: Key, uid: nat, index: nat) {
    && name in b.nads && OwnedBy(b.nads[name].owners, uid) && LabelIndex(b.nads[name]) == Some(index)
    && b == a.(nads := a.nads[name := b.nads[name]])
  }

  /** The node's bridges cannot be ensured: an index label is unreadable, too few indexes are free, or a name is taken. */
  ghost predicate NodeBlocked(api: Api, key: Key, lab: Lab, node: string, model: string) {
    || BadLabel(api.nads) || |Free(UsedIndexes(api.nads))| < BridgeCount(node)
    || (!IsIntegrated(model)
        && (Foreign(api, FabricKey(key, node), lab.uid)
            || (VmTypeOf(node) == MAGC && Foreign(api, DataFabricKey(key, node), lab.uid))))
  }

  /** Nothing but bridges has been added. */
  ghost predicate OnlyBridges(a: Api, b: Api) {
    && b.labs == a.labs && b.lans == a.lans && b.nextUid == a.nextUid
    && forall k | k in a.nads :: k in b.nads && b.nads[k] == a.nads[k]
  }

  /** A router's bridges stand and are the lab's: none for an integrated chassis, else the fabric, and for a MAG-c the data
      fabric. */
  ghost predicate NodeStands(api: Api, key: Key, lab: Lab, node: string)
    requires node in lab.nodes
  {
    lab.nodes[node].Router? && !IsIntegrated(lab.nodes[node].model) ==>
      && Stands(api, FabricKey(key, node), lab.uid)
      && (VmTypeOf(node) == MAGC ==> Stands(api, DataFabricKey(key, node), lab.uid))
  }

  /** The same, but for bridges that were deleted in the history from `a` to `b`. */
  ghost predicate NodeStandsUnlessDeleted(api: Api, key: Key, lab: Lab, node: string, a: seq<Event>, b: seq<Event>)
    requires node in lab.nodes
  {
    lab.nodes[node].Router? && !IsIntegrated(lab.nodes[node].model) ==>
      && StandsUnlessDeleted(api, FabricKey(key, node), lab.uid, a, b)
      && (VmTypeOf(node) == MAGC ==> StandsUnlessDeleted(api, DataFabricKey(key, node), lab.uid, a, b))
  }

  lemma BridgeStandsOn(start: State, a: seq<Event>, b: seq<Event>, c: seq<Event>, s: State, t: State, k: Key, uid: nat)
    requires a <= b <= c && Run(start, b) == s && Run(start, c) == t && StandsUnlessDeleted(s.api, k, uid, a, b)
    ensures StandsUnlessDeleted(t.api, k, uid, a, c)
  {
    if Stands(s.api, k, uid) {
      StandsLater(start, b, c, s, t, k, uid);
      DeletedSince(a, b, c, DeleteNad(k));
    } else {
      assert c[|a|..] == b[|a|..] + c[|b|..];
    }
  }

  lemma NodeStandsOn(start: State, a: seq<Event>, b: seq<Event>, c: seq<Event>, s: State, t: State, key: Key, lab: Lab, node: string)
    requires a <= b <= c && Run(start, b) == s && Run(start, c) == t && node in lab.nodes
    requires NodeStandsUnlessDeleted(s.api, key, lab, node, a, b)
    ensures NodeStandsUnlessDeleted(t.api, key, lab, node, a, c)
  {
    if lab.nodes[node].Router? && !IsIntegrated(lab.nodes[node].model) {
      BridgeStandsOn(start, a, b, c, s, t, FabricKey(key, node), lab.uid);
      if VmTypeOf(node) == MAGC {
        BridgeStandsOn(start, a, b, c, s, t, DataFabricKey(key, node), lab.uid);
      }
    }
  }

  ghost predicate SomeNodeBlocked(api: Api, key: Key, lab: Lab) {
    exists node :: node in lab.nodes && lab.nodes[node].Router? && NodeBlocked(api, key, lab, node, lab.nodes[node].model)
  }

  /** A new fabric has the least index that was free. */
  ghost predicate FabricLeast(a: Api, b: Api, k: Key) {
    k !in a.nads ==> k in b.nads && LabelIndex(b.nads[k]).Some? && LeastFree(LabelIndex(b.nads[k]).value, UsedIndexes(a.nads))
  }

  /** A router's bridges are ensured exactly when nothing blocks them, and then they stand. */
  ghost predicate NodeEnsured(a: Api, b: Api, key: Key, lab: Lab, node: string, ok: bool)
    requires node in lab.nodes && lab.nodes[node].Router?
  {
    var model := lab.nodes[node].model;
    && OnlyBridges(a, b) && ok == !NodeBlocked(a, key, lab, node, model)
    && (!ok ==> NodeBlocked(b, key, lab, node, model))
    && (ok ==> NodeStands(b, key, lab, node))
    && (ok && !IsIntegrated(model) ==> FabricLeast(a, b, FabricKey(key, node)))
  }

  ghost predicate LeastFree(i: nat, used: set<nat>) { i in Free(used) && forall j | j in Free(used) :: i <= j }

  lemma FirstIsLeast(used: set<nat>, n: nat)
    requires n > 0 && Allocate(used, n).Some?
    ensures |Allocate(used, n).value| == n && LeastFree(Allocate(used, n).value[0], used)
  {
    AllocateExact(used, n);
    var r := Allocate(used, n).value;
    assert r[0] in r;
    assert r[0] in Free(used) by {
      AllocatedAreFree(used, n);
    }
    forall j | j in Free(used)
      ensures r[0] <= j
    {
      if j in r {
        var k :| 0 <= k < |r| && r[k] == j;
      }
    }
  }

  lemma NewNadIndex(key: Key, lab: Lab, index: nat)
    requires index <= MaxIndex
    ensures LabelIndex(NewNad(key, lab, index)) == Some(index) && OwnedBy(NewNad(key, lab, index).owners, lab.uid)
  {
    AtoiItoa(index);
    assert NewNad(key, lab, index).owners[0].uid == lab.uid;
  }

  lemma FabricsDiffer(key: Key, node: string)
    ensures FabricKey(key, node) != DataFabricKey(key, node)
  {
    assert |FabricName(key.name, node)| != |DataFabricName(key.name, node)|;
  }

  /** The indexes a node gets from what is stored. */
  ghost function IndexesFor(api: Api, node: string): Option<seq<nat>> {
    if BadLabel(api.nads) then None else Allocate(UsedIndexes(api.nads), BridgeCount(node))
  }

  lemma NoIndexesBlock(a: Api, key: Key, lab: Lab, node: string, model: string)
    ensures IndexesFor(a, node).None? ==> NodeBlocked(a, key, lab, node, model)
    ensures IndexesFor(a, node).Some? && IsIntegrated(model) ==> !NodeBlocked(a, key, lab, node, model)
    ensures IndexesFor(a, node).Some? <==> !BadLabel(a.nads) && |Free(UsedIndexes(a.nads))| >= BridgeCount(node)
    ensures IndexesFor(a, node).Some? ==> |IndexesFor(a, node).value| == BridgeCount(node)
    ensures IndexesFor(a, node).Some? ==> forall i | i in IndexesFor(a, node).value :: i <= MaxIndex
  {
    AllocateExact(UsedIndexes(a.nads), BridgeCount(node));
  }

  lemma FabricOutcome(a: Api, b: Api, key: Key, lab: Lab, node: string, ok: bool)
    requires node in lab.nodes && lab.nodes[node].Router? && !IsIntegrated(lab.nodes[node].model)
    requires IndexesFor(a, node).Some? && BridgeEnsured(a, b, FabricKey(key, node), lab.uid, IndexesFor(a, node).value[0], ok)
    requires ok ==> VmTypeOf(node) != MAGC
    ensures NodeEnsured(a, b, key, lab, node, ok)
  {
    NoIndexesBlock(a, key, lab, node, lab.nodes[node].model);
    FirstIsLeast(UsedIndexes(a.nads), BridgeCount(node));
  }

  lemma DataFabricOutcome(a: Api, m: Api, b: Api, key: Key, lab: Lab, node: string, index: nat, ok: bool)
    requires node in lab.nodes && lab.nodes[node].Router? && !IsIntegrated(lab.nodes[node].model) && VmTypeOf(node) == MAGC
    requires IndexesFor(a, node).Some? && BridgeEnsured(a, m, FabricKey(key, node), lab.uid, IndexesFor(a, node).value[0], true)
    requires BridgeEnsured(m, b, DataFabricKey(key, node), lab.uid, index, ok)
    ensures NodeEnsured(a, b, key, lab, node, ok)
  {
    FabricsDiffer(key, node);
    NoIndexesBlock(a, key, lab, node, lab.nodes[node].model);
    FirstIsLeast(UsedIndexes(a.nads), BridgeCount(node));
    assert Foreign(m, DataFabricKey(key, node), lab.uid) == Foreign(a, DataFabricKey(key, node), lab.uid);
  }

  /** Others make no bridges. */
  lemma {:induction false} OthersMakeNoBridge(s: State, es: seq<Event>, k: Key)
    requires forall i | 0 <= i < |es| :: Environment(es[i])
    ensures k in Run(s, es).api.nads ==> k in s.api.nads && Run(s, es).api.nads[k] == s.api.nads[k]
    decreases |es|
  {
    if es != [] {
      var n := |es| - 1;
      OthersMakeNoBridge(s, es[..n], k);
    }
  }

  lemma BridgeWasThere(start: State, a: seq<Event>, b: seq<Event>, s: State, t: State, k: Key)
    requires Interfered(a, b) && Run(start, a) == s && Run(start, b) == t && k in t.api.nads
    ensures k in s.api.nads && t.api.nads[k] == s.api.nads[k]
  {
    var es := b[|a|..];
    assert b == a + es;
    RunConcat(start, a, es);
    OthersMakeNoBridge(s, es, k);
  }

  // ---- tear-down ----

  /** The LANs of the links in `done` have lost the lab finalizer, and go away if that was what held them; nothing else
      changes. */
  ghost predicate LansReleased(a: Api, b: Api, key: Key, done: set<string>) {
    && b.labs == a.labs && b.nads == a.nads && b.nextUid == a.nextUid
    && (forall link | link in done :: LanKey(key, link) in a.lans && LanStripped(a.lans, b.lans, LanKey(key, link)))
    && (forall k | k !in a.lans :: k !in b.lans)
    && (forall k | k in a.lans :: k in LanKeys(key, done) || (k in b.lans && b.lans[k] == a.lans[k]))
  }

  ghost function LanKeys(key: Key, links: set<string>): set<Key> { set link | link in links :: LanKey(key, link) }

  ghost predicate LanStripped(a: map<Key, Lan>, b: map<Key, Lan>, k: Key)
    requires k in a
  {
    var finalizers := a[k].finalizers - {FinalizerName};
    if a[k].deleting && finalizers == {} then k !in b else k in b && b[k] == a[k].(finalizers := finalizers)
  }

  lemma StrippedStep(a: Api, b: Api, c: Api, key: Key, done: set<string>, link: string)
    requires LansReleased(a, b, key, done) && link !in done
    requires LanKey(key, link) in b.lans
    requires var lan := b.lans[LanKey(key, link)];
             c == b.(lans := StoreLan(b.lans, LanKey(key, link), lan.(finalizers := lan.finalizers - {FinalizerName})))
    ensures LanKey(key, link) in a.lans && LansReleased(a, c, key, done + {link})
  {
    var name := LanKey(key, link);
    if name in LanKeys(key, done) {
      var other :| other in done && name == LanKey(key, other);
      LanKeyInjective(key, link, other);
    }
    assert LanKeys(key, done + {link}) == LanKeys(key, done) + {name};
    forall other | other in done
      ensures LanStripped(a.lans, c.lans, LanKey(key, other))
    {
      assert LanKey(key, other) in LanKeys(key, done);
    }
  }

  /** Every link of the lab has a LAN under its name, whoever owns it. */
  ghost predicate LansPresent(api: Api, key: Key, lab: Lab) { forall link | link in lab.links :: LanKey(key, link) in api.lans }

  lemma MissingWas(a: Api, b: Api, key: Key, done: set<string>, link: string)
    requires LansReleased(a, b, key, done) && link !in done && LanKey(key, link) !in b.lans
    ensures LanKey(key, link) !in a.lans
  {
    if LanKey(key, link) in LanKeys(key, done) {
      var other :| other in done && LanKey(key, link) == LanKey(key, other);
      LanKeyInjective(key, link, other);
    }
  }

  // ---- runs ----

  lemma InvLater(start: State, a: seq<Event>, b: seq<Event>, s: State, t: State)
    requires a <= b && Run(start, a) == s && Run(start, b) == t && Inv(s)
    ensures Inv(t)
  {
    var es := b[|a|..];
    assert b == a + es;
    RunConcat(start, a, es);
    RunKeeps(s, es);
  }

  lemma NotSmooth(script: Script, from: nat, mid: nat, to: nat)
    requires from <= mid && !Smooth(script, mid, to)
    ensures !Smooth(script, from, to)
  {
  }

  // ---- the loops ----

  ghost predicate NodesPassed(api: Api, key: Key, lab: Lab, todo: set<string>, a: seq<Event>, b: seq<Event>) {
    forall node | node in lab.nodes && node !in todo :: NodeStandsUnlessDeleted(api, key, lab, node, a, b)
  }

  lemma NodePassedSince(api: Api, key: Key, lab: Lab, node: string, a: seq<Event>, b: seq<Event>, c: seq<Event>)
    requires a <= b <= c && node in lab.nodes && NodeStandsUnlessDeleted(api, key, lab, node, b, c)
    ensures NodeStandsUnlessDeleted(api, key, lab, node, a, c)
  {
    DeletedSince(a, b, c, DeleteNad(FabricKey(key, node)));
    DeletedSince(a, b, c, DeleteNad(DataFabricKey(key, node)));
  }

  lemma NodesPassedStep(start: State, a: seq<Event>, b: seq<Event>, c: seq<Event>, s: State, t: State, key: Key, lab: Lab,
                        todo: set<string>, node: string)
    requires a <= b <= c && Run(start, b) == s && Run(start, c) == t && node in lab.nodes
    requires NodesPassed(s.api, key, lab, todo, a, b) && NodeStandsUnlessDeleted(t.api, key, lab, node, b, c)
    ensures NodesPassed(t.api, key, lab, todo - {node}, a, c)
  {
    forall n | n in lab.nodes && n !in todo - {node}
      ensures NodeStandsUnlessDeleted(t.api, key, lab, n, a, c)
    {
      if n == node {
        NodePassedSince(t.api, key, lab, n, a, b, c);
      } else {
        NodeStandsOn(start, a, b, c, s, t, key, lab, n);
      }
    }
  }

  ghost predicate NodesDone(api: Api, key: Key, lab: Lab, todo: set<string>) {
    forall node | node in lab.nodes && node !in todo :: NodeStands(api, key, lab, node)
  }

  lemma NodeStandsStill(a: Api, b: Api, key: Key, lab: Lab, node: string)
    requires OnlyBridges(a, b) && node in lab.nodes && NodeStands(a, key, lab, node)
    ensures NodeStands(b, key, lab, node)
  {
  }

  /** One turn of the loop over the nodes. */
  lemma NodeTurn(script: Script, from: Log, mid: Log, now: Log, a: Api, b: Api, c: Api, key: Key, lab: Lab, todo: set<string>,
                 node: string, bridged: bool)
    requires from.calls <= mid.calls <= now.calls && node in lab.nodes
    requires Smooth(script, from.calls, mid.calls) ==> OnlyBridges(a, b) && NodesDone(b, key, lab, todo)
    requires Smooth(script, mid.calls, now.calls) ==>
               if lab.nodes[node].Router? then NodeEnsured(b, c, key, lab, node, bridged) else bridged && c == b
    ensures Smooth(script, from.calls, now.calls) ==>
              && OnlyBridges(a, c)
              && if bridged then NodesDone(c, key, lab, todo - {node}) else SomeNodeBlocked(c, key, lab)
  {
    if Smooth(script, from.calls, now.calls) {
      SmoothParts(script, from.calls, mid.calls, now.calls);
      assert OnlyBridges(b, c);
      if bridged {
        forall n | n in lab.nodes && n !in todo - {node}
          ensures NodeStands(c, key, lab, n)
        {
          if n != node {
            NodeStandsStill(b, c, key, lab, n);
          }
        }
      }
    }
  }

  /** A LAN that is there loses the lab finalizer; the update of one that is not is refused. */
  ghost predicate LanStrippedAt(a: Api, b: Api, name: Key, ok: bool) {
    if name in a.lans
    then ok && b == a.(lans := StoreLan(a.lans, name, a.lans[name].(finalizers := a.lans[name].finalizers - {FinalizerName})))
    else !ok && b == a
  }

  lemma NothingStripped(a: Api, key: Key, links: set<string>)
    ensures LansReleased(a, a, key, links - links)
  {
  }

  /** One turn of the loop over the links of a lab that is being deleted; r is what is stored when the LAN has been read. */
  lemma StripTurn(script: Script, from: Log, mid: Log, read: Log, now: Log, a: Api, b: Api, r: Api, c: Api, key: Key, lab: Lab,
                  todo: set<string>, link: string, found: Option<Lan>, ok: bool)
    requires from.calls <= mid.calls <= read.calls <= now.calls && todo <= lab.links.Keys && link in todo
    requires Smooth(script, from.calls, mid.calls) ==> LansReleased(a, b, key, lab.links.Keys - todo)
    requires Smooth(script, mid.calls, read.calls) ==> r == b && found == Lookup(b.lans, LanKey(key, link))
    requires Smooth(script, read.calls, now.calls) && found == Lookup(r.lans, LanKey(key, link)) ==>
               LanStrippedAt(r, c, LanKey(key, link), ok)
    ensures Smooth(script, from.calls, now.calls) ==>
              if ok then LansReleased(a, c, key, lab.links.Keys - (todo - {link})) else !LansPresent(a, key, lab)
  {
    if Smooth(script, from.calls, now.calls) {
      SmoothParts(script, from.calls, mid.calls, now.calls);
      SmoothParts(script, mid.calls, read.calls, now.calls);
      var done := lab.links.Keys - todo;
      if ok {
        StrippedStep(a, b, c, key, done, link);
        assert lab.links.Keys - (todo - {link}) == done + {link};
      } else {
        MissingWas(a, b, key, done, link);
      }
    }
  }

  // ---- a reconcile ----

  ghost predicate NodesStand(api: Api, key: Key, lab: Lab) { forall node | node in lab.nodes :: NodeStands(api, key, lab, node) }

  /** A lab that is being deleted has been torn down, and no longer holds itself back. */
  ghost predicate TornDown(a: Api, b: Api, key: Key, lab: Lab) {
    && LansReleased(a, b.(labs := a.labs), key, lab.links.Keys)
    && b.labs == StoreLab(a.labs, key, lab.(finalizers := lab.finalizers - {FinalizerName}))
  }

  /** A lab has been ensured: its links have their LANs and its routers their bridges, unless a router's are blocked. */
  ghost predicate LabEnsured(b: Api, key: Key, lab: Lab, failing: set<string>) {
    && LinksStand(b, key, lab) && key in b.labs && SameLab(b.labs[key], lab) && HasFinalizer(b.labs[key].finalizers)
    && (failing !! lab.nodes.Keys ==> NodesStand(b, key, lab) || SomeNodeBlocked(b, key, lab))
  }

  /** What a reconcile in which no call fails and nobody interferes comes to; `failing` are the nodes whose machine or pod cannot
      be had. */
  ghost predicate Reconciled(a: Api, b: Api, key: Key, failing: set<string>, err: bool) {
    if key !in a.labs then b == a && !err
    else
      var lab := a.labs[key];
      if !lab.deleting then !err && (Available(a, key, lab) ==> LabEnsured(b, key, lab, failing))
      else if FinalizerName !in lab.finalizers then b == a && !err
      else (err <==> !LansPresent(a, key, lab)) && (!err ==> TornDown(a, b, key, lab))
  }

  /** The two parts of ensuring a lab. */
  lemma LabTurn(script: Script, from: Log, mid: Log, now: Log, a: Api, first: Pc, b: Api, c: Api, key: Key, lab: Lab,
                failing: set<string>)
    requires from.calls <= mid.calls <= now.calls && first == ListVnis(key, lab)
    requires Smooth(script, from.calls, mid.calls) && Inv(State(a, first)) ==>
               Available(a, key, lab) && LinksEnsured(a, b, key, lab, |LinkNames(lab)|)
    requires Smooth(script, mid.calls, now.calls) ==>
               OnlyBridges(b, c) && (failing !! lab.nodes.Keys ==> NodesStand(c, key, lab) || SomeNodeBlocked(c, key, lab))
    ensures Smooth(script, from.calls, now.calls) && Inv(State(a, first)) ==> LabEnsured(c, key, lab, failing)
  {
    if Smooth(script, from.calls, now.calls) && Inv(State(a, first)) {
      SmoothParts(script, from.calls, mid.calls, now.calls);
      AllLinksEnsured(a, b, key, lab);
      assert Live(a, key, lab);
    }
  }

  /** Having the finalizer or not makes no difference to what a lab needs and has. */
  lemma SameButFinalizers(a: Api, b: Api, key: Key, lab: Lab, finalizers: set<string>, failing: set<string>)
    ensures var l := lab.(finalizers := finalizers); b.lans == a.lans ==> (Available(b, key, l) <==> Available(a, key, lab))
    ensures var l := lab.(finalizers := finalizers); LabEnsured(b, key, l, failing) ==> LabEnsured(b, key, lab, failing)
  {
    var l := lab.(finalizers := finalizers);
    if b.lans == a.lans {
      assert forall link | link in lab.links :: LinkAvailable(b, key, l, link) == LinkAvailable(a, key, lab, link);
    }
    assert forall node | node in lab.nodes :: NodeStands(b, key, l, node) == NodeStands(b, key, lab, node);
    if node :| node in l.nodes && l.nodes[node].Router? && NodeBlocked(b, key, l, node, l.nodes[node].model) {
      assert NodeBlocked(b, key, lab, node, lab.nodes[node].model);
    }
  }
}

/** Every step of the controller keeps the invariant; so it holds in every reachable state. */
module ClusterSteps {
  import opened Wrappers
  import opened Text
  import opened Names
  import opened Allocator
  import opened Cluster
  import opened ClusterInvariant

  // ---- links in sorted order ----

  lemma LinkNamesDistinct(lab: Lab)
    ensures |LinkNames(lab)| == |lab.links|
    ensures forall i | 0 <= i < |LinkNames(lab)| :: LinkNames(lab)[i] in lab.links
    ensures forall i, j | 0 <= i < j < |LinkNames(lab)| :: LinkNames(lab)[i] != LinkNames(lab)[j]
  {
    AscendingDistinct(LinkNames(lab));
    assert forall i | 0 <= i < |LinkNames(lab)| :: LinkNames(lab)[i] in Elems(LinkNames(lab));
  }

  lemma LanKeyInjective(key: Key, a: string, b: string)
    requires LanKey(key, a) == LanKey(key, b)
    ensures a == b
  {
    LanNameInjectiveInLab(key.name, a, b);
  }

  // ---- reads, writes, and the start of a reconcile ----

  lemma IdleOk(api: Api)
    ensures PcInv(api, Idle)
  {
  }

  /** A write either leaves everything and ends the reconcile, or takes effect. */
  lemma WrittenKeeps(api: Api, o: Outcome, after: Option<Api>, pc: Pc)
    requires ApiInv(api)
    requires after.Some? && !o.Failed? ==> ApiInv(after.value) && PcInv(after.value, pc)
    ensures Inv(Written(api, o, after, pc))
  {
    IdleOk(api);
    if after.Some? {
      IdleOk(after.value);
    }
  }

  lemma BeginOk(api: Api, key: Key)
    ensures PcInv(api, Begin(api, key))
  {
  }

  // ---- the finalizer of the lab ----

  lemma FinalizerAdded(api: Api, key: Key, lab: Lab)
    requires key in api.labs && api.labs[key] == lab && !lab.deleting
    ensures var lab' := lab.(finalizers := lab.finalizers + {FinalizerName});
            var api' := api.(labs := StoreLab(api.labs, key, lab'));
            Change(api, api') && Live(api', key, lab')
  {
  }

  lemma NoLanLeft(api: Api, key: Key, lab: Lab)
    requires OwnedLans(api) && Dying(api, key, lab) && Stripped(api, key, lab, {})
    ensures NoLanHeldBy(api, lab.uid)
  {
    assert forall k | k in api.lans && OwnedBy(api.lans[k].owners, lab.uid) :: IsLanOf(key, lab, k, api.lans[k]);
  }

  lemma FinalizerDropped(api: Api, key: Key, lab: Lab)
    requires key in api.labs && api.labs[key] == lab && NoLanHeldBy(api, lab.uid)
    ensures Change(api, api.(labs := StoreLab(api.labs, key, lab.(finalizers := lab.finalizers - {FinalizerName}))))
  {
  }

  lemma AddFinalizerStep(api: Api, pc: Pc, o: Outcome)
    requires ApiInv(api) && pc.AddFinalizer? && !pc.lab.deleting
    ensures Inv(AddFinalizerCall(api, pc, o))
  {
    var finalizers := pc.lab.finalizers + {FinalizerName};
    var lab' := pc.lab.(finalizers := finalizers);
    var after := TryUpdateLab(api, pc.key, pc.lab, finalizers);
    if after.Some? {
      LabUpdateUids(api, pc.key, lab');
      FinalizerAdded(api, pc.key, pc.lab);
      ChangeKeeps(api, after.value);
    }
    WrittenKeeps(api, o, after, ListVnis(pc.key, lab'));
  }

  lemma DropFinalizerStep(api: Api, pc: Pc, o: Outcome)
    requires ApiInv(api) && pc.DropFinalizer? && TearingDownOk(api, pc)
    ensures Inv(DropFinalizerCall(api, pc, o))
  {
    var lab' := pc.lab.(finalizers := pc.lab.finalizers - {FinalizerName});
    var after := TryUpdateLab(api, pc.key, pc.lab, lab'.finalizers);
    LabUpdateUids(api, pc.key, lab');
    NoLanLeft(api, pc.key, pc.lab);
    FinalizerDropped(api, pc.key, pc.lab);
    ChangeKeeps(api, after.value);
    IdleOk(after.value);
    WrittenKeeps(api, o, after, Idle);
  }

  // ---- ensuring the links ----

  lemma LinkedOk(api: Api, key: Key, lab: Lab, vnis: seq<nat>, used: seq<nat>)
    requires Live(api, key, lab) && |used| <= |vnis| == |lab.links|
    requires FreshFrom(api, vnis, |used|) && UsedMatch(api, key, lab, used)
    ensures PcInv(api, Linked(key, lab, vnis, used))
  {
    var pc := Linked(key, lab, vnis, used);
    if pc.GetLan? {
      assert LinkingOk(api, pc);
    } else {
      assert NetworkingOk(api, pc);
    }
  }

  lemma AllocatedIsFresh(api: Api, n: nat)
    ensures match Allocate(UsedVnis(api.lans), n)
            case None => true
            case Some(vnis) => |vnis| == n && FreshFrom(api, vnis, 0)
  {
    AllocateExact(UsedVnis(api.lans), n);
    match Allocate(UsedVnis(api.lans), n)
    case None =>
    case Some(vnis) =>
      assert forall j | 0 <= j < |vnis| :: vnis[j] in vnis;
      assert forall k | k in api.lans :: api.lans[k].vni in UsedVnis(api.lans);
  }

  lemma ListVnisStep(api: Api, pc: Pc, o: Outcome)
    requires pc.ListVnis? && Live(api, pc.key, pc.lab)
    ensures PcInv(api, ListVnisCall(api, pc, o))
  {
    AllocatedIsFresh(api, |pc.lab.links|);
    match Allocate(UsedVnis(api.lans), |pc.lab.links|)
    case None =>
    case Some(vnis) => LinkedOk(api, pc.key, pc.lab, vnis, []);
  }

  lemma LocalLanOk(api: Api, key: Key, lab: Lab, vnis: seq<nat>, used: seq<nat>)
    requires |used| < |vnis| == |lab.links|
    ensures match LocalLan(api, key, lab, CurrentLink(lab, used), vnis[|used|])
            case None => true
            case Some((lan, stored)) => LocalOk(api, key, lab, vnis, used, lan, stored)
  {
    LinkNamesDistinct(lab);
    var link := CurrentLink(lab, used);
    if LanKey(key, link) !in api.lans {
      assert Upsert([], LabRef(key, lab)) == [LabRef(key, lab)];
      var spokes := Spokes(vnis[|used|], |lab.links[link]|);
      assert [] + spokes == spokes;
    }
  }

  /** A reconcile between the first look at a link's LAN and its creation. */
  lemma LinkingPc(api: Api, pc: Pc)
    requires Linking(pc) && Live(api, pc.key, pc.lab) && LinkingOk(api, pc)
    ensures PcInv(api, pc)
  {
  }

  lemma GetLanStep(api: Api, pc: Pc, o: Outcome)
    requires pc.GetLan? && Live(api, pc.key, pc.lab) && LinkingOk(api, pc)
    ensures PcInv(api, GetLanCall(api, pc, o))
  {
    IdleOk(api);
    LocalLanOk(api, pc.key, pc.lab, pc.vnis, pc.used);
    if GetLanCall(api, pc, o).PutLan? {
      LinkingPc(api, GetLanCall(api, pc, o));
    } else {
      assert GetLanCall(api, pc, o) == Idle;
    }
  }

  lemma UsedMatchGrows(api: Api, key: Key, lab: Lab, used: seq<nat>, vni: nat)
    requires UsedMatch(api, key, lab, used) && |used| < |lab.links|
    requires var k := LanKey(key, CurrentLink(lab, used));
             k in api.lans && OwnedBy(api.lans[k].owners, lab.uid) && api.lans[k].vni == vni
    ensures UsedMatch(api, key, lab, used + [vni])
  {
    LinkNamesDistinct(lab);
    var used' := used + [vni];
    assert forall j | 0 <= j < |used'| :: used'[j] == if j < |used| then used[j] else vni;
  }

  lemma PutLanStep(api: Api, pc: Pc, o: Outcome)
    requires pc.PutLan? && Live(api, pc.key, pc.lab) && LinkingOk(api, pc)
    ensures PcInv(api, PutLanCall(api, pc, o))
  {
    IdleOk(api);
    var k := LanKey(pc.key, CurrentLink(pc.lab, pc.used));
    if o.Done? && k !in api.lans {
      LinkingPc(api, PutLanCall(api, pc, o));
    } else if o.Done? && OwnedBy(api.lans[k].owners, pc.lab.uid) {
      UsedMatchGrows(api, pc.key, pc.lab, pc.used, pc.lan.vni);
      LinkedOk(api, pc.key, pc.lab, pc.vnis, pc.used + [pc.lan.vni]);
      assert PutLanCall(api, pc, o) == Linked(pc.key, pc.lab, pc.vnis, pc.used + [pc.lan.vni]);
    } else {
      assert PutLanCall(api, pc, o) == Idle;
    }
  }

  ghost predicate AddsLan(api: Api, api': Api, k: Key, lan: Lan) {
    k !in api.lans && api' == api.(lans := api.lans[k := lan], nextUid := api.nextUid + 1)
  }

  lemma AddsLanUids(api: Api, api': Api, k: Key, lan: Lan)
    requires Uids(api) && AddsLan(api, api', k, lan) && lan.uid == api.nextUid && OwnersBelow(lan.owners, api.nextUid)
    ensures Uids(api')
  {
  }

  lemma AddsLanVnis(api: Api, api': Api, k: Key, lan: Lan)
    requires DistinctVnis(api) && AddsLan(api, api', k, lan)
    requires forall j | j in api.lans :: api.lans[j].vni != lan.vni
    ensures DistinctVnis(api')
  {
  }

  lemma AddsLanOwned(api: Api, api': Api, k: Key, lan: Lan, key: Key, link: string)
    requires Uids(api) && OwnedLans(api) && AddsLan(api, api', k, lan)
    requires key in api.labs && lan.owners == [LabRef(key, api.labs[key])] && 1 <= lan.vni <= MaxIndex
    requires link in api.labs[key].links && k == LanKey(key, link)
    requires lan.spokes == Spokes(lan.vni, |api.labs[key].links[link]|)
    ensures OwnedLans(api')
  {
    forall j, a | j in api'.lans && a in api'.labs && OwnedBy(api'.lans[j].owners, api'.labs[a].uid)
      ensures IsLanOf(a, api'.labs[a], j, api'.lans[j])
    {
      if j == k {
        assert a == key;
        assert link in api'.labs[a].links;
      } else {
        assert IsLanOf(a, api.labs[a], j, api.lans[j]);
      }
    }
  }

  lemma AddsLanBacked(api: Api, api': Api, k: Key, lan: Lan, key: Key)
    requires FinalizersBacked(api) && AddsLan(api, api', k, lan)
    requires key in api.labs && HasFinalizer(api.labs[key].finalizers) && lan.owners == [LabRef(key, api.labs[key])]
    ensures FinalizersBacked(api')
  {
    assert lan.owners[0].uid == api.labs[key].uid;
    forall j | j in api'.lans && HasFinalizer(api'.lans[j].finalizers)
      ensures exists a :: BackedBy(api', j, a)
    {
      if j == k {
        assert BackedBy(api', j, key);
      } else {
        var a :| BackedBy(api, j, a);
        assert BackedBy(api', j, a);
      }
    }
  }

  /** Creating the LAN of a link keeps the stored invariant. */
  lemma LanCreated(api: Api, api': Api, key: Key, lab: Lab, vnis: seq<nat>, used: seq<nat>, lan: Lan)
    requires ApiInv(api) && Live(api, key, lab) && |used| < |vnis| == |lab.links|
    requires FreshFrom(api, vnis, |used|) && LocalOk(api, key, lab, vnis, used, lan, false)
    requires AddsLan(api, api', LanKey(key, CurrentLink(lab, used)), lan.(uid := api.nextUid))
    ensures ApiInv(api')
  {
    LinkNamesDistinct(lab);
    var link := CurrentLink(lab, used);
    var k, lan' := LanKey(key, link), lan.(uid := api.nextUid);
    AddsLanUids(api, api', k, lan');
    AddsLanVnis(api, api', k, lan');
    AddsLanOwned(api, api', k, lan', key, link);
    AddsLanBacked(api, api', k, lan', key);
  }

  /** ... and lets the reconcile go on to the next link. */
  lemma LanCreatedLinks(api: Api, api': Api, key: Key, lab: Lab, vnis: seq<nat>, used: seq<nat>, lan: Lan)
    requires Live(api, key, lab) && |used| < |vnis| == |lab.links|
    requires FreshFrom(api, vnis, |used|) && UsedMatch(api, key, lab, used) && LocalOk(api, key, lab, vnis, used, lan, false)
    requires AddsLan(api, api', LanKey(key, CurrentLink(lab, used)), lan.(uid := api.nextUid))
    ensures Live(api', key, lab) && FreshFrom(api', vnis, |used| + 1) && UsedMatch(api', key, lab, used + [lan.vni])
  {
    LinkNamesDistinct(lab);
    var names, k := LinkNames(lab), LanKey(key, CurrentLink(lab, used));
    assert lan.owners[0].uid == lab.uid;
    forall j | 0 <= j < |used|
      ensures LanKey(key, names[j]) != k
    {
      if LanKey(key, names[j]) == k {
        LanKeyInjective(key, names[j], names[|used|]);
      }
    }
    assert UsedMatch(api', key, lab, used);
    UsedMatchGrows(api', key, lab, used, lan.vni);
  }

  lemma LanCreatedInv(api: Api, api': Api, pc: Pc)
    requires ApiInv(api) && pc.CreateLan? && !pc.stored && Live(api, pc.key, pc.lab) && LinkingOk(api, pc)
    requires AddsLan(api, api', LanKey(pc.key, CurrentLink(pc.lab, pc.used)), pc.lan.(uid := api.nextUid))
    ensures ApiInv(api') && PcInv(api', Linked(pc.key, pc.lab, pc.vnis, pc.used + [pc.lan.vni]))
  {
    LanCreated(api, api', pc.key, pc.lab, pc.vnis, pc.used, pc.lan);
    LanCreatedLinks(api, api', pc.key, pc.lab, pc.vnis, pc.used, pc.lan);
    LinkedOk(api', pc.key, pc.lab, pc.vnis, pc.used + [pc.lan.vni]);
  }

  lemma CreateLanStep(api: Api, pc: Pc, o: Outcome)
    requires ApiInv(api) && pc.CreateLan? && Live(api, pc.key, pc.lab) && LinkingOk(api, pc)
    ensures Inv(CreateLanCall(api, pc, o))
  {
    var k := LanKey(pc.key, CurrentLink(pc.lab, pc.used));
    var after := TryCreateLan(api, k, pc.lan, pc.stored);
    if after.Some? {
      LanCreatedInv(api, after.value, pc);
    }
    WrittenKeeps(api, o, after, Linked(pc.key, pc.lab, pc.vnis, pc.used + [pc.lan.vni]));
  }

  // ---- ensuring the bridges ----

  lemma PlanIsFresh(api: Api, key: Key, node: string, model: string, indexes: seq<nat>)
    requires Allocate(UsedIndexes(api.nads), BridgeCount(node)) == Some(indexes)
    requires |indexes| == BridgeCount(node)
    ensures var plan := BridgePlan(key, node, model, indexes); plan != [] ==> PlanFresh(api, plan)
  {
    AllocateExact(UsedIndexes(api.nads), BridgeCount(node));
    var plan := BridgePlan(key, node, model, indexes);
    assert forall i | 0 <= i < |plan| :: plan[i].index == indexes[i] && indexes[i] in indexes;
    forall i, k | 0 <= i < |plan| && k in api.nads
      ensures LabelIndex(api.nads[k]) != Some(plan[i].index)
    {
      if LabelIndex(api.nads[k]).Some? {
        assert LabelIndex(api.nads[k]).value in UsedIndexes(api.nads);
      }
    }
  }

  lemma NetworkingPc(api: Api, pc: Pc)
    requires Networking(pc) && Live(api, pc.key, pc.lab) && NetworkingOk(api, pc)
    ensures PcInv(api, pc)
  {
  }

  lemma BridgedOk(api: Api, key: Key, lab: Lab, used: seq<nat>, nodes: set<string>, plan: seq<Bridge>)
    requires Live(api, key, lab) && |used| == |lab.links| && UsedMatch(api, key, lab, used)
    requires plan != [] ==> PlanFresh(api, plan)
    ensures PcInv(api, Bridged(key, lab, used, nodes, plan))
  {
    NetworkingPc(api, Bridged(key, lab, used, nodes, plan));
  }

  lemma NodeStep(api: Api, pc: Pc, node: string, o: Outcome)
    requires pc.PickNode? && node in pc.nodes && node in pc.lab.nodes
    requires Live(api, pc.key, pc.lab) && NetworkingOk(api, pc)
    ensures PcInv(api, NodeCall(api, pc, node, o))
  {
    IdleOk(api);
    var free := Allocate(UsedIndexes(api.nads), BridgeCount(node));
    if pc.lab.nodes[node].OtherNode? {
      BridgedOk(api, pc.key, pc.lab, pc.used, pc.nodes - {node}, []);
    } else if !o.Done? || BadLabel(api.nads) || free.None? {
      assert NodeCall(api, pc, node, o) == Idle;
    } else {
      var model := pc.lab.nodes[node].model;
      AllocateExact(UsedIndexes(api.nads), BridgeCount(node));
      PlanIsFresh(api, pc.key, node, model, free.value);
      BridgedOk(api, pc.key, pc.lab, pc.used, pc.nodes - {node}, BridgePlan(pc.key, node, model, free.value));
    }
  }

  lemma PutNadStep(api: Api, pc: Pc, o: Outcome)
    requires pc.PutNad? && Live(api, pc.key, pc.lab) && NetworkingOk(api, pc)
    ensures PcInv(api, PutNadCall(api, pc, o))
  {
    IdleOk(api);
    if o.Done? && pc.plan[0].key !in api.nads {
      NetworkingPc(api, CreateNad(pc.key, pc.lab, pc.used, pc.nodes, pc.plan));
    } else if o.Done? && OwnedBy(api.nads[pc.plan[0].key].owners, pc.lab.uid) {
      PlanTail(api, pc.plan);
      BridgedOk(api, pc.key, pc.lab, pc.used, pc.nodes, pc.plan[1..]);
    } else {
      assert PutNadCall(api, pc, o) == Idle;
    }
  }

  lemma PlanTail(api: Api, plan: seq<Bridge>)
    requires PlanFresh(api, plan)
    ensures plan[1..] != [] ==> PlanFresh(api, plan[1..])
  {
  }

  ghost predicate AddsNad(api: Api, api': Api, k: Key, nad: Nad) {
    k !in api.nads && api' == api.(nads := api.nads[k := nad])
  }

  lemma AddsNadKeeps(api: Api, api': Api, k: Key, nad: Nad)
    requires ApiInv(api) && AddsNad(api, api', k, nad) && OwnersBelow(nad.owners, api.nextUid)
    requires forall j | j in api.nads && LabelIndex(nad).Some? :: LabelIndex(api.nads[j]) != LabelIndex(nad)
    ensures ApiInv(api')
  {
    AddsNadUids(api, api', k, nad);
    AddsNadRest(api, api');
  }

  lemma AddsNadUids(api: Api, api': Api, k: Key, nad: Nad)
    requires Uids(api) && AddsNad(api, api', k, nad) && OwnersBelow(nad.owners, api.nextUid)
    ensures Uids(api')
  {
  }

  lemma AddsNadRest(api: Api, api': Api)
    requires OwnedLans(api) && FinalizersBacked(api) && api' == api.(nads := api'.nads)
    ensures OwnedLans(api') && FinalizersBacked(api')
  {
    forall k, key | k in api'.lans && key in api'.labs && OwnedBy(api'.lans[k].owners, api'.labs[key].uid)
      ensures IsLanOf(key, api'.labs[key], k, api'.lans[k])
    {
      assert IsLanOf(key, api.labs[key], k, api.lans[k]);
    }
    forall k | k in api'.lans && HasFinalizer(api'.lans[k].finalizers)
      ensures exists key :: BackedBy(api', k, key)
    {
      var key :| BackedBy(api, k, key);
      assert BackedBy(api', k, key);
    }
  }

  lemma NadCreatedPlan(api: Api, api': Api, plan: seq<Bridge>, nad: Nad)
    requires PlanFresh(api, plan) && AddsNad(api, api', plan[0].key, nad) && LabelIndex(nad) == Some(plan[0].index)
    ensures plan[1..] != [] ==> PlanFresh(api', plan[1..])
  {
  }

  lemma NadCreatedInv(api: Api, api': Api, pc: Pc)
    requires ApiInv(api) && pc.CreateNad? && Live(api, pc.key, pc.lab) && NetworkingOk(api, pc)
    requires AddsNad(api, api', pc.plan[0].key, NewNad(pc.key, pc.lab, pc.plan[0].index))
    ensures ApiInv(api') && PcInv(api', Bridged(pc.key, pc.lab, pc.used, pc.nodes, pc.plan[1..]))
  {
    var k, nad := pc.plan[0].key, NewNad(pc.key, pc.lab, pc.plan[0].index);
    AtoiItoa(pc.plan[0].index);
    AddsNadKeeps(api, api', k, nad);
    NadCreatedPlan(api, api', pc.plan, nad);
    BridgedOk(api', pc.key, pc.lab, pc.used, pc.nodes, pc.plan[1..]);
  }

  lemma CreateNadStep(api: Api, pc: Pc, o: Outcome)
    requires ApiInv(api) && pc.CreateNad? && Live(api, pc.key, pc.lab) && NetworkingOk(api, pc)
    ensures Inv(CreateNadCall(api, pc, o))
  {
    var after := TryCreateNad(api, pc.plan[0].key, NewNad(pc.key, pc.lab, pc.plan[0].index));
    if after.Some? {
      NadCreatedInv(api, after.value, pc);
    }
    WrittenKeeps(api, o, after, Bridged(pc.key, pc.lab, pc.used, pc.nodes, pc.plan[1..]));
  }

  // ---- tearing down ----

  lemma NextLinkOk(api: Api, key: Key, lab: Lab, todo: set<string>)
    requires Dying(api, key, lab) && Stripped(api, key, lab, todo)
    ensures PcInv(api, NextLink(key, lab, todo))
  {
  }

  lemma LinkStep(api: Api, pc: Pc, link: string, o: Outcome)
    requires pc.PickLink? && link in pc.todo && TearingDownOk(api, pc)
    ensures PcInv(api, LinkCall(api, pc, link, o))
  {
  }

  lemma LanStripped(api: Api, key: Key, lab: Lab, todo: set<string>, link: string, lan: Lan)
    requires Dying(api, key, lab) && Stripped(api, key, lab, todo) && !HasFinalizer(lan.finalizers)
    ensures var api' := api.(lans := StoreLan(api.lans, LanKey(key, link), lan));
            Dying(api', key, lab) && Stripped(api', key, lab, todo - {link})
  {
  }

  lemma LanStrippedInv(api: Api, pc: Pc, lan: Lan)
    requires ApiInv(api) && pc.UpdateLan? && TearingDownOk(api, pc)
    requires var k := LanKey(pc.key, pc.link); k in api.lans && SameLan(api.lans[k], lan)
    requires !HasFinalizer(lan.finalizers)
    ensures var api' := api.(lans := StoreLan(api.lans, LanKey(pc.key, pc.link), lan));
            ApiInv(api') && PcInv(api', NextLink(pc.key, pc.lab, pc.todo - {pc.link}))
  {
    var k := LanKey(pc.key, pc.link);
    var api' := api.(lans := StoreLan(api.lans, k, lan));
    LanUpdateUids(api, k, lan);
    LanUpdateChange(api, k, lan);
    ChangeKeeps(api, api');
    LanStripped(api, pc.key, pc.lab, pc.todo, pc.link, lan);
    NextLinkOk(api', pc.key, pc.lab, pc.todo - {pc.link});
  }

  lemma UpdateLanStep(api: Api, pc: Pc, o: Outcome)
    requires ApiInv(api) && pc.UpdateLan? && TearingDownOk(api, pc)
    ensures Inv(UpdateLanCall(api, pc, o))
  {
    IdleOk(api);
    if pc.found.Some? {
      var finalizers := pc.found.value.finalizers - {FinalizerName};
      var after := TryUpdateLan(api, LanKey(pc.key, pc.link), pc.found.value, finalizers);
      if after.Some? {
        LanStrippedInv(api, pc, pc.found.value.(finalizers := finalizers));
      }
      WrittenKeeps(api, o, after, NextLink(pc.key, pc.lab, pc.todo - {pc.link}));
    }
  }

  // ---- any step, any run ----

  lemma ReadKeeps(s: State, pc: Pc)
    requires Inv(s) && PcInv(s.api, pc)
    ensures Inv(State(s.api, pc))
  {
  }

  lemma LinkingCallKeeps(s: State, o: Outcome)
    requires Inv(s) && (s.pc.ListVnis? || Linking(s.pc))
    ensures Inv(CallStep(s, o))
  {
    if s.pc.ListVnis? {
      ListVnisStep(s.api, s.pc, o);
      ReadKeeps(s, ListVnisCall(s.api, s.pc, o));
    } else if s.pc.GetLan? {
      GetLanStep(s.api, s.pc, o);
      ReadKeeps(s, GetLanCall(s.api, s.pc, o));
    } else if s.pc.PutLan? {
      PutLanStep(s.api, s.pc, o);
      ReadKeeps(s, PutLanCall(s.api, s.pc, o));
    } else {
      CreateLanStep(s.api, s.pc, o);
      assert CallStep(s, o) == CreateLanCall(s.api, s.pc, o);
    }
  }

  lemma NetworkingCall(s: State, o: Outcome)
    requires s.pc.PutNad? || s.pc.CreateNad?
    ensures s.pc.PutNad? ==> CallStep(s, o) == State(s.api, PutNadCall(s.api, s.pc, o))
    ensures s.pc.CreateNad? ==> CallStep(s, o) == CreateNadCall(s.api, s.pc, o)
  {
  }

  lemma NetworkingCallKeeps(s: State, o: Outcome)
    requires Inv(s) && (s.pc.PutNad? || s.pc.CreateNad?)
    ensures Inv(CallStep(s, o))
  {
    NetworkingCall(s, o);
    if s.pc.PutNad? {
      PutNadStep(s.api, s.pc, o);
      ReadKeeps(s, PutNadCall(s.api, s.pc, o));
    } else {
      CreateNadStep(s.api, s.pc, o);
    }
  }

  lemma FinalizerCallKeeps(s: State, o: Outcome)
    requires Inv(s) && (s.pc.AddFinalizer? || s.pc.UpdateLan? || s.pc.DropFinalizer?)
    ensures Inv(CallStep(s, o))
  {
    if s.pc.AddFinalizer? {
      AddFinalizerStep(s.api, s.pc, o);
      assert CallStep(s, o) == AddFinalizerCall(s.api, s.pc, o);
    } else if s.pc.UpdateLan? {
      UpdateLanStep(s.api, s.pc, o);
      assert CallStep(s, o) == UpdateLanCall(s.api, s.pc, o);
    } else {
      DropFinalizerStep(s.api, s.pc, o);
      assert CallStep(s, o) == DropFinalizerCall(s.api, s.pc, o);
    }
  }

  lemma CallStepKeeps(s: State, o: Outcome)
    requires Inv(s)
    ensures Inv(CallStep(s, o))
  {
    if s.pc.ListVnis? || Linking(s.pc) {
      LinkingCallKeeps(s, o);
    } else if s.pc.PutNad? || s.pc.CreateNad? {
      NetworkingCallKeeps(s, o);
    } else if s.pc.AddFinalizer? || s.pc.UpdateLan? || s.pc.DropFinalizer? {
      FinalizerCallKeeps(s, o);
    } else {
      assert CallStep(s, o) == s;
    }
  }

  lemma NextKeeps(s: State, e: Event)
    requires Inv(s)
    ensures Inv(Next(s, e))
  {
    if Environment(e) {
      EnvironmentKeeps(s.api, e);
      EnvironmentKeepsPc(s.api, EnvironmentStep(s.api, e), s.pc);
    } else {
      match e
      case Start(key) =>
        BeginOk(s.api, key);
        ReadKeeps(s, Begin(s.api, key));
      case Call(o) => CallStepKeeps(s, o);
      case ForNode(node, o) =>
        if s.pc.PickNode? && node in s.pc.nodes && node in s.pc.lab.nodes {
          NodeStep(s.api, s.pc, node, o);
          ReadKeeps(s, NodeCall(s.api, s.pc, node, o));
        }
      case ForLink(link, o) =>
        if s.pc.PickLink? && link in s.pc.todo {
          LinkStep(s.api, s.pc, link, o);
          ReadKeeps(s, LinkCall(s.api, s.pc, link, o));
        }
      case Stop => IdleOk(s.api);
    }
  }

  /** The invariant holds in every state of every run, whatever calls fail and whoever interferes. */
  lemma {:induction false} RunKeeps(s: State, es: seq<Event>)
    requires Inv(s)
    ensures Inv(Run(s, es))
    decreases |es|
  {
    if es != [] {
      RunKeeps(s, es[..|es| - 1]);
      NextKeeps(Run(s, es[..|es| - 1]), es[|es| - 1]);
    }
  }

  lemma InitInv(s: State)
    requires Init(s)
    ensures Inv(s)
  {
  }
}

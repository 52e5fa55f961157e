/** What every step of the controller and its environment keeps. */
module ClusterInvariant {
  import opened Wrappers
  import opened Allocator
  import opened Cluster

  // ---- stored state ----

  ghost predicate OwnersBelow(owners: seq<Owner>, uid: nat) {
    forall i | 0 <= i < |owners| :: owners[i].uid < uid
  }

  /** Every UID in use was handed out, and no two objects share one. */
  ghost predicate Uids(api: Api) {
    && (forall k | k in api.labs :: api.labs[k].uid < api.nextUid)
    && (forall k | k in api.lans :: api.lans[k].uid < api.nextUid && OwnersBelow(api.lans[k].owners, api.nextUid))
    && (forall k | k in api.nads :: OwnersBelow(api.nads[k].owners, api.nextUid))
    && (forall j, k | j in api.labs && k in api.labs && j != k :: api.labs[j].uid != api.labs[k].uid)
    && (forall j, k | j in api.lans && k in api.lans && j != k :: api.lans[j].uid != api.lans[k].uid)
  }

  /** No two LANs of the cluster share a VNI. */
  ghost predicate DistinctVnis(api: Api) {
    forall j, k | j in api.lans && k in api.lans && j != k :: api.lans[j].vni != api.lans[k].vni
  }

  /** No two bridges of the cluster share an index. */
  ghost predicate DistinctIndexes(api: Api) {
    forall j, k | j in api.nads && k in api.nads && j != k && LabelIndex(api.nads[j]).Some? ::
      LabelIndex(api.nads[j]) != LabelIndex(api.nads[k])
  }

  /** `lan` at `k` is the LAN the operator makes for one of the lab's links: the VNI is a 24-bit number
      other than 0, and the stored spokes are the names derived from it, one per connector. */
  ghost predicate IsLanOf(key: Key, lab: Lab, k: Key, lan: Lan) {
    && lan.owners == [LabRef(key, lab)]
    && 1 <= lan.vni <= MaxIndex
    && exists link :: link in lab.links && k == LanKey(key, link) && lan.spokes == Spokes(lan.vni, |lab.links[link]|)
  }

  ghost predicate OwnedLans(api: Api) {
    forall k, key | k in api.lans && key in api.labs && OwnedBy(api.lans[k].owners, api.labs[key].uid) ::
      IsLanOf(key, api.labs[key], k, api.lans[k])
  }

  ghost predicate HasFinalizer(finalizers: set<string>) { FinalizerName in finalizers }

  ghost predicate BackedBy(api: Api, k: Key, key: Key)
    requires k in api.lans
  {
    key in api.labs && HasFinalizer(api.labs[key].finalizers) && OwnedBy(api.lans[k].owners, api.labs[key].uid)
  }

  /** A LAN that carries the lab finalizer belongs to a lab that still exists and carries it too. So a lab
      cannot have dropped its finalizer before all its LANs dropped theirs. */
  ghost predicate FinalizersBacked(api: Api) {
    forall k | k in api.lans && HasFinalizer(api.lans[k].finalizers) :: exists key :: BackedBy(api, k, key)
  }

  ghost predicate ApiInv(api: Api) {
    Uids(api) && DistinctVnis(api) && DistinctIndexes(api) && OwnedLans(api) && FinalizersBacked(api)
  }

  // ---- the controller's position ----

  predicate Ensuring(pc: Pc) {
    pc.ListVnis? || Linking(pc) || Networking(pc)
  }

  predicate Linking(pc: Pc) { pc.GetLan? || pc.PutLan? || pc.CreateLan? }

  /** EnsureLinks has succeeded; the nodes are being ensured. */
  predicate Networking(pc: Pc) { pc.PickNode? || pc.PutNad? || pc.CreateNad? }

  predicate TearingDown(pc: Pc) { pc.PickLink? || pc.UpdateLan? || pc.DropFinalizer? }

  predicate SameLab(a: Lab, b: Lab) { a.uid == b.uid && a.links == b.links && a.nodes == b.nodes }

  /** The lab being ensured exists, possibly marked for deletion by now, and carries the finalizer. */
  ghost predicate Live(api: Api, key: Key, lab: Lab) {
    && key in api.labs && SameLab(api.labs[key], lab) && HasFinalizer(api.labs[key].finalizers)
    && HasFinalizer(lab.finalizers) && !lab.deleting
  }

  ghost predicate FreshFrom(api: Api, vnis: seq<nat>, from: nat) {
    && StrictlyAscending(vnis)
    && (forall j | 0 <= j < |vnis| :: 1 <= vnis[j] <= MaxIndex)
    && (forall j, k | from <= j < |vnis| && k in api.lans :: vnis[j] != api.lans[k].vni)
  }

  /** The LANs of the links done, where they still exist, are the lab's and have the VNIs noted. */
  ghost predicate UsedMatch(api: Api, key: Key, lab: Lab, used: seq<nat>) {
    && |used| <= |LinkNames(lab)|
    && (forall j | 0 <= j < |used| && LanKey(key, LinkNames(lab)[j]) in api.lans ::
          var lan := api.lans[LanKey(key, LinkNames(lab)[j])];
          OwnedBy(lan.owners, lab.uid) && lan.vni == used[j])
  }

  /** The LAN in memory: a new object with a free VNI, or a copy of the one stored under its name. */
  ghost predicate LocalOk(api: Api, key: Key, lab: Lab, vnis: seq<nat>, used: seq<nat>, lan: Lan, stored: bool)
    requires |used| < |vnis| == |lab.links|
  {
    var link := CurrentLink(lab, used);
    var k := LanKey(key, link);
    if stored then k in api.lans ==> lan.vni == api.lans[k].vni
    else
      && k !in api.lans
      && lan == Lan(0, [LabRef(key, lab)], vnis[|used|], Spokes(vnis[|used|], |lab.links[link]|), {FinalizerName}, false)
  }

  ghost predicate PlanFresh(api: Api, plan: seq<Bridge>) {
    && plan != []
    && (forall i, j | 0 <= i < j < |plan| :: plan[i].index != plan[j].index)
    && (forall i, k | 0 <= i < |plan| && k in api.nads :: LabelIndex(api.nads[k]) != Some(plan[i].index))
    && (forall i | 0 <= i < |plan| :: 1 <= plan[i].index <= MaxIndex)
  }

  /** The links already handled have no LAN that carries the finalizer. */
  ghost predicate Stripped(api: Api, key: Key, lab: Lab, todo: set<string>) {
    && todo <= lab.links.Keys
    && (forall link | link in lab.links && link !in todo && LanKey(key, link) in api.lans ::
          !HasFinalizer(api.lans[LanKey(key, link)].finalizers))
  }

  ghost predicate Dying(api: Api, key: Key, lab: Lab) {
    key in api.labs && api.labs[key] == lab && lab.deleting && HasFinalizer(lab.finalizers)
  }

  ghost predicate LinkingOk(api: Api, pc: Pc)
    requires Linking(pc)
  {
    && |pc.used| < |pc.vnis| == |pc.lab.links|
    && FreshFrom(api, pc.vnis, |pc.used|)
    && UsedMatch(api, pc.key, pc.lab, pc.used)
    && (pc.PutLan? || pc.CreateLan? ==> LocalOk(api, pc.key, pc.lab, pc.vnis, pc.used, pc.lan, pc.stored))
  }

  ghost predicate NetworkingOk(api: Api, pc: Pc)
    requires Networking(pc)
  {
    && |pc.used| == |pc.lab.links|
    && UsedMatch(api, pc.key, pc.lab, pc.used)
    && (pc.PutNad? || pc.CreateNad? ==> PlanFresh(api, pc.plan))
  }

  ghost predicate TearingDownOk(api: Api, pc: Pc)
    requires TearingDown(pc)
  {
    && Dying(api, pc.key, pc.lab)
    && Stripped(api, pc.key, pc.lab, if pc.DropFinalizer? then {} else pc.todo)
    && (pc.UpdateLan? ==> pc.link in pc.todo)
  }

  ghost predicate PcInv(api: Api, pc: Pc) {
    && (pc.AddFinalizer? ==> !pc.lab.deleting && !HasFinalizer(pc.lab.finalizers))
    && (Ensuring(pc) ==> Live(api, pc.key, pc.lab))
    && (Linking(pc) ==> LinkingOk(api, pc))
    && (Networking(pc) ==> NetworkingOk(api, pc))
    && (TearingDown(pc) ==> TearingDownOk(api, pc))
  }

  ghost predicate Inv(s: State) { ApiInv(s.api) && PcInv(s.api, s.pc) }

  // ---- ownership by a single reference ----

  lemma OwnersBelowNotOwned(owners: seq<Owner>, uid: nat)
    requires OwnersBelow(owners, uid)
    ensures !OwnedBy(owners, uid)
  {
  }

  /** A LAN belongs to at most one of the labs present. */
  lemma OneOwner(api: Api, k: Key, a: Key, b: Key)
    requires Uids(api) && OwnedLans(api)
    requires k in api.lans && a in api.labs && b in api.labs
    requires OwnedBy(api.lans[k].owners, api.labs[a].uid) && OwnedBy(api.lans[k].owners, api.labs[b].uid)
    ensures a == b
  {
    assert IsLanOf(a, api.labs[a], k, api.lans[k]);
    assert IsLanOf(b, api.labs[b], k, api.lans[k]);
  }

  // ---- changes of the stored state ----

  predicate SameLan(a: Lan, b: Lan) {
    a.uid == b.uid && a.owners == b.owners && a.vni == b.vni && a.spokes == b.spokes
  }

  /** A step that creates no LAN and no bridge. Labs may come, be marked or go, as long as those that hold LANs
      with the finalizer stay; LANs and bridges may be marked, edited or removed when what identifies them
      stays and they gain no finalizer of ours. */
  ghost predicate Change(api: Api, api': Api) {
    && api.nextUid <= api'.nextUid
    && (forall key | key in api'.labs ::
          (key in api.labs && SameLab(api.labs[key], api'.labs[key])) || api'.labs[key].uid >= api.nextUid)
    && (forall key | key in api.labs && HasFinalizer(api.labs[key].finalizers) ::
          || (key in api'.labs && SameLab(api.labs[key], api'.labs[key]) && HasFinalizer(api'.labs[key].finalizers))
          || NoLanHeldBy(api, api.labs[key].uid))
    && (forall k | k in api'.lans :: k in api.lans && SameLan(api.lans[k], api'.lans[k])
                                     && (HasFinalizer(api'.lans[k].finalizers) ==> HasFinalizer(api.lans[k].finalizers)))
    && (forall k | k in api'.nads :: k in api.nads && api'.nads[k] == api.nads[k])
  }

  ghost predicate NoLanHeldBy(api: Api, uid: nat) {
    forall k | k in api.lans && HasFinalizer(api.lans[k].finalizers) :: !OwnedBy(api.lans[k].owners, uid)
  }

  lemma ChangeKeepsOwned(api: Api, api': Api)
    requires Uids(api) && OwnedLans(api) && Change(api, api')
    ensures OwnedLans(api')
  {
    forall k, key | k in api'.lans && key in api'.labs && OwnedBy(api'.lans[k].owners, api'.labs[key].uid)
      ensures IsLanOf(key, api'.labs[key], k, api'.lans[k])
    {
      assert api'.labs[key].uid < api.nextUid;
      assert IsLanOf(key, api.labs[key], k, api.lans[k]);
    }
  }

  lemma ChangeKeepsBacked(api: Api, api': Api)
    requires FinalizersBacked(api) && Change(api, api')
    ensures FinalizersBacked(api')
  {
    forall k | k in api'.lans && HasFinalizer(api'.lans[k].finalizers)
      ensures exists key :: BackedBy(api', k, key)
    {
      var key :| BackedBy(api, k, key);
      assert BackedBy(api', k, key);
    }
  }

  lemma ChangeKeepsDistinct(api: Api, api': Api)
    requires DistinctVnis(api) && DistinctIndexes(api) && Change(api, api')
    ensures DistinctVnis(api') && DistinctIndexes(api')
  {
  }

  lemma ChangeKeeps(api: Api, api': Api)
    requires ApiInv(api) && Change(api, api') && Uids(api')
    ensures ApiInv(api')
  {
    ChangeKeepsOwned(api, api');
    ChangeKeepsBacked(api, api');
    ChangeKeepsDistinct(api, api');
  }

  // ---- steps of the environment ----

  /** How the environment may change the stored state. */
  ghost predicate EnvironmentChange(api: Api, api': Api) {
    && api.nextUid <= api'.nextUid
    && (forall key | key in api'.labs ::
          || (key in api.labs && SameLab(api.labs[key], api'.labs[key])
              && api'.labs[key].finalizers == api.labs[key].finalizers
              && (api.labs[key].deleting ==> api'.labs[key] == api.labs[key]))
          || (key !in api.labs && api'.labs[key].uid >= api.nextUid && api'.labs[key].finalizers == {}))
    && (forall key | key in api.labs && HasFinalizer(api.labs[key].finalizers) :: key in api'.labs)
    && (forall k | k in api'.lans :: k in api.lans && SameLan(api.lans[k], api'.lans[k])
                                     && (HasFinalizer(api'.lans[k].finalizers) <==> HasFinalizer(api.lans[k].finalizers)))
    && (forall k | k in api.lans && HasFinalizer(api.lans[k].finalizers) :: k in api'.lans)
    && (forall k | k in api'.nads :: k in api.nads && api'.nads[k] == api.nads[k])
  }

  lemma EnvironmentIsChange(api: Api, api': Api)
    requires EnvironmentChange(api, api')
    ensures Change(api, api')
  {
  }

  lemma NoChange(api: Api)
    ensures EnvironmentChange(api, api)
  {
  }

  lemma NewLabUids(api: Api, key: Key, lab: Lab)
    requires Uids(api) && key !in api.labs && lab.uid == api.nextUid
    ensures Uids(api.(labs := api.labs[key := lab], nextUid := api.nextUid + 1))
  {
  }

  lemma NewLabChange(api: Api, key: Key, lab: Lab)
    requires key !in api.labs && lab.uid == api.nextUid && lab.finalizers == {} && !lab.deleting
    ensures EnvironmentChange(api, api.(labs := api.labs[key := lab], nextUid := api.nextUid + 1))
  {
  }

  /** A stored lab is updated, and goes away when it is marked and nothing holds it. */
  lemma LabUpdateUids(api: Api, key: Key, lab: Lab)
    requires Uids(api) && key in api.labs && lab.uid == api.labs[key].uid
    ensures Uids(api.(labs := StoreLab(api.labs, key, lab)))
  {
  }

  lemma DeleteLabChange(api: Api, key: Key)
    requires key in api.labs
    ensures EnvironmentChange(api, api.(labs := StoreLab(api.labs, key, api.labs[key].(deleting := true))))
  {
  }

  lemma LanUpdateUids(api: Api, key: Key, lan: Lan)
    requires Uids(api) && key in api.lans && SameLan(api.lans[key], lan)
    ensures Uids(api.(lans := StoreLan(api.lans, key, lan)))
  {
  }

  lemma LanUpdateChange(api: Api, key: Key, lan: Lan)
    requires key in api.lans && SameLan(api.lans[key], lan)
    requires HasFinalizer(lan.finalizers) ==> HasFinalizer(api.lans[key].finalizers)
    ensures Change(api, api.(lans := StoreLan(api.lans, key, lan)))
    ensures (HasFinalizer(api.lans[key].finalizers) <==> HasFinalizer(lan.finalizers)) ==>
              EnvironmentChange(api, api.(lans := StoreLan(api.lans, key, lan)))
  {
  }

  lemma DeleteNadUids(api: Api, key: Key)
    requires Uids(api)
    ensures Uids(api.(nads := api.nads - {key}))
  {
  }

  lemma DeleteNadChange(api: Api, key: Key)
    ensures EnvironmentChange(api, api.(nads := api.nads - {key}))
  {
  }

  lemma EnvironmentChanges(api: Api, e: Event)
    requires Uids(api) && Environment(e)
    ensures Uids(EnvironmentStep(api, e)) && EnvironmentChange(api, EnvironmentStep(api, e))
  {
    if EnvironmentStep(api, e) == api {
      NoChange(api);
      return;
    }
    match e
    case NewLab(key, links, nodes) =>
      NewLabUids(api, key, Lab(api.nextUid, {}, false, links, nodes));
      NewLabChange(api, key, Lab(api.nextUid, {}, false, links, nodes));
    case DeleteLab(key) =>
      LabUpdateUids(api, key, api.labs[key].(deleting := true));
      DeleteLabChange(api, key);
    case DeleteLan(key) =>
      LanUpdateUids(api, key, api.lans[key].(deleting := true));
      LanUpdateChange(api, key, api.lans[key].(deleting := true));
    case EditLan(key, finalizers) =>
      LanUpdateUids(api, key, api.lans[key].(finalizers := finalizers));
      LanUpdateChange(api, key, api.lans[key].(finalizers := finalizers));
    case DeleteNad(key) =>
      DeleteNadUids(api, key);
      DeleteNadChange(api, key);
  }

  lemma EnvironmentKeeps(api: Api, e: Event)
    requires ApiInv(api) && Environment(e)
    ensures ApiInv(EnvironmentStep(api, e)) && EnvironmentChange(api, EnvironmentStep(api, e))
  {
    var api' := EnvironmentStep(api, e);
    EnvironmentChanges(api, e);
    EnvironmentIsChange(api, api');
    ChangeKeeps(api, api');
  }

  lemma EnvironmentKeepsLinking(api: Api, api': Api, pc: Pc)
    requires EnvironmentChange(api, api') && Linking(pc) && LinkingOk(api, pc)
    ensures LinkingOk(api', pc)
  {
  }

  lemma EnvironmentKeepsNetworking(api: Api, api': Api, pc: Pc)
    requires EnvironmentChange(api, api') && Networking(pc) && NetworkingOk(api, pc)
    ensures NetworkingOk(api', pc)
  {
  }

  lemma EnvironmentKeepsTearingDown(api: Api, api': Api, pc: Pc)
    requires EnvironmentChange(api, api') && TearingDown(pc) && TearingDownOk(api, pc)
    ensures TearingDownOk(api', pc)
  {
  }

  lemma EnvironmentKeepsLive(api: Api, api': Api, key: Key, lab: Lab)
    requires EnvironmentChange(api, api') && Live(api, key, lab)
    ensures Live(api', key, lab)
  {
  }

  lemma EnvironmentKeepsPc(api: Api, api': Api, pc: Pc)
    requires EnvironmentChange(api, api') && PcInv(api, pc)
    ensures PcInv(api', pc)
  {
    if Ensuring(pc) {
      EnvironmentKeepsLive(api, api', pc.key, pc.lab);
    }
    if Linking(pc) {
      EnvironmentKeepsLinking(api, api', pc);
    } else if Networking(pc) {
      EnvironmentKeepsNetworking(api, api', pc);
    } else if TearingDown(pc) {
      EnvironmentKeepsTearingDown(api, api', pc);
    }
  }
}

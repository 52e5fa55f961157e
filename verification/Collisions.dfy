/** LAN names "lab-link" of different labs may coincide. While they do not, a lab that is not being deleted
    keeps its LANs and their numbers for good, and every reconcile derives the same spokes again. */
module Collisions {
  import opened Text
  import opened Cluster
  import opened ClusterInvariant
  import opened ClusterSteps
  import opened History

  /** Two labs present at once have links whose LANs would have the same name. */
  ghost predicate Collides(api: Api) {
    exists a, b, x, y ::
      && a in api.labs && b in api.labs && a != b
      && x in api.labs[a].links && y in api.labs[b].links
      && LanKey(a, x) == LanKey(b, y)
  }

  /** No names coincide in any state of the run. */
  ghost predicate CollisionFree(s: State, es: seq<Event>)
    decreases |es|
  {
    !Collides(Run(s, es).api) && (es != [] ==> CollisionFree(s, es[..|es| - 1]))
  }

  /** The LAN at k belongs to the lab at key, which is not being deleted. */
  ghost predicate Held(api: Api, k: Key, key: Key) {
    k in api.lans && key in api.labs && OwnedBy(api.lans[k].owners, api.labs[key].uid) && !api.labs[key].deleting
  }

  /** Every LAN of a lab that is not being deleted carries the finalizer, so nobody can remove it. */
  ghost predicate Guarded(api: Api) {
    forall k, key | Held(api, k, key) :: HasFinalizer(api.lans[k].finalizers)
  }

  // ---- the LANs of live labs stay ----

  lemma StripsAnother(s: State, k: Key, key: Key)
    requires Inv(s) && !Collides(s.api) && s.pc.UpdateLan? && Held(s.api, k, key)
    ensures k != LanKey(s.pc.key, s.pc.link)
  {
    assert IsLanOf(key, s.api.labs[key], k, s.api.lans[k]);
    assert Dying(s.api, s.pc.key, s.pc.lab) && s.pc.link in s.pc.lab.links;
  }

  lemma HeldLanStays(s: State, e: Event, k: Key, key: Key)
    requires Inv(s) && Guarded(s.api) && !Collides(s.api) && Held(s.api, k, key)
    ensures k in Next(s, e).api.lans && SameLan(s.api.lans[k], Next(s, e).api.lans[k])
    ensures HasFinalizer(Next(s, e).api.lans[k].finalizers)
  {
    if Environment(e) {
      EnvironmentChanges(s.api, e);
    } else {
      EffectOfNext(s, e);
      if s.pc.UpdateLan? {
        StripsAnother(s, k, key);
      }
      EffectKeepsLan(s, Next(s, e).api, k);
    }
  }

  lemma EffectKeepsLan(s: State, api: Api, k: Key)
    requires Effect(s, api) && k in s.api.lans
    requires s.pc.UpdateLan? ==> k != LanKey(s.pc.key, s.pc.link)
    ensures k in api.lans && api.lans[k] == s.api.lans[k]
  {
  }

  lemma NewLanIsGuarded(s: State, e: Event, k: Key)
    requires Inv(s) && k in Next(s, e).api.lans && k !in s.api.lans
    ensures HasFinalizer(Next(s, e).api.lans[k].finalizers)
  {
    if Environment(e) {
      EnvironmentChanges(s.api, e);
    } else {
      EffectOfNext(s, e);
      NewLanIsCreated(s, Next(s, e).api, k);
      CreatedLanHasFinalizer(s, Next(s, e).api, k);
    }
  }

  lemma NewLanIsCreated(s: State, api: Api, k: Key)
    requires Effect(s, api) && k in api.lans && k !in s.api.lans
    ensures CreatesLan(s, api)
  {
  }

  lemma CreatedLanHasFinalizer(s: State, api: Api, k: Key)
    requires PcInv(s.api, s.pc) && CreatesLan(s, api) && k in api.lans && k !in s.api.lans
    ensures HasFinalizer(api.lans[k].finalizers)
  {
    assert LocalOk(s.api, s.pc.key, s.pc.lab, s.pc.vnis, s.pc.used, s.pc.lan, false);
  }

  lemma HeldBefore(s: State, e: Event, k: Key, key: Key)
    requires Inv(s) && k in s.api.lans && Held(Next(s, e).api, k, key)
    requires SameLan(s.api.lans[k], Next(s, e).api.lans[k])
    ensures Held(s.api, k, key)
  {
    NextContinues(s, e);
    OwnersBelowNotOwned(s.api.lans[k].owners, s.api.nextUid);
    assert OwnersBelow(s.api.lans[k].owners, s.api.nextUid);
  }

  lemma GuardedStays(s: State, e: Event)
    requires Inv(s) && Guarded(s.api) && !Collides(s.api)
    ensures Guarded(Next(s, e).api)
  {
    NextKeeps(s, e);
    NextContinues(s, e);
    forall k, key | Held(Next(s, e).api, k, key)
      ensures HasFinalizer(Next(s, e).api.lans[k].finalizers)
    {
      if k in s.api.lans {
        LanStaysSame(s, e, k);
        HeldBefore(s, e, k, key);
        HeldLanStays(s, e, k, key);
      } else {
        NewLanIsGuarded(s, e, k);
      }
    }
  }

  /** A name is not given to another LAN in one step. */
  lemma LanStaysSame(s: State, e: Event, k: Key)
    requires Inv(s) && k in s.api.lans && k in Next(s, e).api.lans
    ensures SameLan(s.api.lans[k], Next(s, e).api.lans[k])
  {
    if Environment(e) {
      EnvironmentChanges(s.api, e);
    } else {
      EffectOfNext(s, e);
      EffectKeepsIdentity(s, Next(s, e).api, k);
    }
  }

  lemma EffectKeepsIdentity(s: State, api: Api, k: Key)
    requires Effect(s, api) && k in s.api.lans && k in api.lans
    ensures SameLan(s.api.lans[k], api.lans[k])
  {
  }

  lemma {:induction false} RunGuarded(s: State, es: seq<Event>)
    requires Inv(s) && Guarded(s.api) && CollisionFree(s, es)
    ensures Guarded(Run(s, es).api)
    decreases |es|
  {
    if es != [] {
      RunGuarded(s, es[..|es| - 1]);
      RunKeeps(s, es[..|es| - 1]);
      GuardedStays(Run(s, es[..|es| - 1]), es[|es| - 1]);
    }
  }

  ghost predicate LiveLab(api: Api, key: Key, uid: nat) {
    key in api.labs && api.labs[key].uid == uid && !api.labs[key].deleting
  }

  /** Reading a history backwards: a lab that exists and is not marked was so ever since it was created. */
  lemma LiveBefore(a: Api, b: Api, key: Key, uid: nat)
    requires LabsContinue(a, b) && uid < a.nextUid && LiveLab(b, key, uid)
    ensures LiveLab(a, key, uid)
  {
  }

  /** Once a lab has a LAN it keeps it, with its VNI and spokes, until the lab's deletion begins. */
  lemma {:induction false} LanPersists(s: State, es: seq<Event>, k: Key, key: Key)
    requires Inv(s) && Guarded(s.api) && CollisionFree(s, es) && Held(s.api, k, key)
    requires LiveLab(Run(s, es).api, key, s.api.labs[key].uid)
    ensures Held(Run(s, es).api, k, key) && SameLan(s.api.lans[k], Run(s, es).api.lans[k])
    ensures HasFinalizer(Run(s, es).api.lans[k].finalizers)
    decreases |es|
  {
    if es != [] {
      var mid := Run(s, es[..|es| - 1]);
      RunContinues(s, es[..|es| - 1]);
      RunKeeps(s, es[..|es| - 1]);
      NextContinues(mid, es[|es| - 1]);
      LiveBefore(mid.api, Run(s, es).api, key, s.api.labs[key].uid);
      LanPersists(s, es[..|es| - 1], k, key);
      RunGuarded(s, es[..|es| - 1]);
      HeldLanStays(mid, es[|es| - 1], k, key);
    }
  }

  // ---- ensured links have their LANs ----

  /** The LANs of the links passed exist, unless the lab has been marked meanwhile. */
  ghost predicate Present(s: State) {
    (Linking(s.pc) || Networking(s.pc)) && s.pc.key in s.api.labs && !s.api.labs[s.pc.key].deleting ==>
      forall j | 0 <= j < |s.pc.used| && j < |LinkNames(s.pc.lab)| :: LanKey(s.pc.key, LinkNames(s.pc.lab)[j]) in s.api.lans
  }

  predicate Counting(pc: Pc) { Linking(pc) || Networking(pc) }

  lemma LinkReadUsed(s: State, o: Outcome)
    requires (s.pc.ListVnis? || s.pc.GetLan?) && Counting(CallStep(s, o).pc)
    ensures CallStep(s, o).pc.used == if s.pc.ListVnis? then [] else s.pc.used
  {
  }

  lemma PutReadUsed(s: State, o: Outcome)
    requires (s.pc.PutLan? || s.pc.PutNad?) && Counting(CallStep(s, o).pc)
    ensures CallStep(s, o).pc.used == s.pc.used || (s.pc.PutLan? && CallStep(s, o).pc.used == s.pc.used + [s.pc.lan.vni])
  {
  }

  lemma WriteUsed(s: State, o: Outcome)
    requires !(s.pc.ListVnis? || s.pc.GetLan? || s.pc.PutLan? || s.pc.PutNad?) && Counting(CallStep(s, o).pc)
    ensures var pc := CallStep(s, o).pc;
            Counting(s.pc) && (pc.used == s.pc.used || (s.pc.CreateLan? && pc.used == s.pc.used + [s.pc.lan.vni]))
  {
    if s.pc.CreateLan? {
      assert CallStep(s, o) == CreateLanCall(s.api, s.pc, o);
    } else if s.pc.CreateNad? {
      assert CallStep(s, o) == CreateNadCall(s.api, s.pc, o);
    }
  }

  lemma CallUsed(s: State, o: Outcome)
    requires Counting(CallStep(s, o).pc)
    ensures var pc := CallStep(s, o).pc;
            || pc.used == []
            || (Counting(s.pc) && pc.used == s.pc.used)
            || ((s.pc.PutLan? || s.pc.CreateLan?) && pc.used == s.pc.used + [s.pc.lan.vni])
  {
    if s.pc.ListVnis? || s.pc.GetLan? || s.pc.PutLan? || s.pc.PutNad? {
      if s.pc.ListVnis? || s.pc.GetLan? {
        LinkReadUsed(s, o);
      } else {
        PutReadUsed(s, o);
      }
    } else {
      WriteUsed(s, o);
    }
  }

  lemma UsedOrigin(s: State, e: Event)
    requires Counting(Next(s, e).pc)
    ensures var pc := Next(s, e).pc;
            || pc.used == []
            || (Counting(s.pc) && pc.key == s.pc.key && pc.lab == s.pc.lab
                && (pc.used == s.pc.used || (Linking(s.pc) && |pc.used| == |s.pc.used| + 1 && pc.used[..|s.pc.used|] == s.pc.used)))
  {
    if e.Call? {
      CallUsed(s, e.outcome);
    }
  }

  lemma PresentStays(s: State, e: Event)
    requires Inv(s) && Guarded(s.api) && !Collides(s.api) && Present(s)
    ensures Present(Next(s, e))
  {
    var s' := Next(s, e);
    if Counting(s'.pc) && s'.pc.key in s'.api.labs && !s'.api.labs[s'.pc.key].deleting && s'.pc.used != [] {
      UsedOrigin(s, e);
      StillLive(s, e);
      forall j | 0 <= j < |s'.pc.used| && j < |LinkNames(s.pc.lab)|
        ensures LanKey(s.pc.key, LinkNames(s.pc.lab)[j]) in s'.api.lans
      {
        PassedLanIsPresent(s, e, j);
      }
    }
  }

  lemma StillLive(s: State, e: Event)
    requires Inv(s) && Counting(s.pc)
    requires s.pc.key in Next(s, e).api.labs && !Next(s, e).api.labs[s.pc.key].deleting
    ensures s.pc.key in s.api.labs && !s.api.labs[s.pc.key].deleting
  {
    NextContinues(s, e);
    NextKeeps(s, e);
    assert Live(s.api, s.pc.key, s.pc.lab);
    if Environment(e) {
      EnvironmentChanges(s.api, e);
    } else {
      EnsuringOnlyAdds(s, e);
    }
  }

  lemma PassedLanIsPresent(s: State, e: Event, j: nat)
    requires Inv(s) && Guarded(s.api) && !Collides(s.api) && Present(s) && Counting(s.pc) && Counting(Next(s, e).pc)
    requires !s.api.labs[s.pc.key].deleting && j < |LinkNames(s.pc.lab)|
    requires var used := Next(s, e).pc.used;
             j < |used| && (used == s.pc.used || (Linking(s.pc) && |used| == |s.pc.used| + 1))
    ensures LanKey(s.pc.key, LinkNames(s.pc.lab)[j]) in Next(s, e).api.lans
  {
    if j < |s.pc.used| {
      PassedLanStays(s, e, j);
    } else {
      LinkPassedIsOwned(s, e);
    }
  }

  lemma PassedLanStays(s: State, e: Event, j: nat)
    requires Inv(s) && Guarded(s.api) && !Collides(s.api) && Present(s) && Counting(s.pc)
    requires j < |s.pc.used| && j < |LinkNames(s.pc.lab)|
    requires !s.api.labs[s.pc.key].deleting
    ensures LanKey(s.pc.key, LinkNames(s.pc.lab)[j]) in Next(s, e).api.lans
  {
    var k := LanKey(s.pc.key, LinkNames(s.pc.lab)[j]);
    assert Held(s.api, k, s.pc.key);
    HeldLanStays(s, e, k, s.pc.key);
  }

  lemma {:induction false} RunPresent(s: State, es: seq<Event>)
    requires Inv(s) && Guarded(s.api) && Present(s) && CollisionFree(s, es)
    ensures Present(Run(s, es))
    decreases |es|
  {
    if es != [] {
      RunPresent(s, es[..|es| - 1]);
      RunKeeps(s, es[..|es| - 1]);
      RunGuarded(s, es[..|es| - 1]);
      PresentStays(Run(s, es[..|es| - 1]), es[|es| - 1]);
    }
  }

  /** EnsureLinks has succeeded for the lab at key, which is not being deleted; `used` are the VNIs it noted. */
  ghost predicate Ensured(s: State, key: Key, uid: nat, used: seq<nat>) {
    && Networking(s.pc) && s.pc.key == key && s.pc.lab.uid == uid && s.pc.used == used
    && key in s.api.labs && !s.api.labs[key].deleting
  }

  lemma EnsuredLan(s: State, key: Key, uid: nat, used: seq<nat>, j: nat)
    requires Inv(s) && Present(s) && Ensured(s, key, uid, used) && j < |used|
    ensures |used| == |LinkNames(s.pc.lab)| && SameLab(s.api.labs[key], s.pc.lab)
    ensures var k := LanKey(key, LinkNames(s.pc.lab)[j]); Held(s.api, k, key) && s.api.lans[k].vni == used[j]
  {
    LinkNamesDistinct(s.pc.lab);
  }

  /** Whenever EnsureLinks succeeds again for a lab, it finds the same VNI for every link, although it drew a fresh
      list: so it derives the same spokes. */
  lemma RerunFindsSameVnis(s: State, es: seq<Event>, key: Key, uid: nat, first: seq<nat>, again: seq<nat>)
    requires Inv(s) && Guarded(s.api) && Present(s) && CollisionFree(s, es)
    requires Ensured(s, key, uid, first) && Ensured(Run(s, es), key, uid, again)
    ensures first == again && Run(s, es).pc.lab.links == s.pc.lab.links
  {
    var s' := Run(s, es);
    RunKeeps(s, es);
    RunPresent(s, es);
    RunContinues(s, es);
    assert s'.api.labs[key].uid == s.api.labs[key].uid;
    assert SameLab(s.api.labs[key], s'.api.labs[key]);
    LinkNamesDistinct(s.pc.lab);
    LinkNamesDistinct(s'.pc.lab);
    forall j | 0 <= j < |first|
      ensures again[j] == first[j]
    {
      EnsuredLan(s, key, uid, first, j);
      EnsuredLan(s', key, uid, again, j);
      LanPersists(s, es, LanKey(key, LinkNames(s.pc.lab)[j]), key);
    }
  }

  /** ... and it creates nothing: every LAN of the lab was there already. */
  lemma RerunCreatesNothing(s: State, es: seq<Event>, key: Key, uid: nat, first: seq<nat>, k: Key)
    requires Inv(s) && Guarded(s.api) && Present(s) && CollisionFree(s, es)
    requires Ensured(s, key, uid, first) && Held(Run(s, es).api, k, key) && Run(s, es).api.labs[key].uid == uid
    ensures k in s.api.lans && SameLan(s.api.lans[k], Run(s, es).api.lans[k])
  {
    var s' := Run(s, es);
    RunKeeps(s, es);
    RunContinues(s, es);
    assert IsLanOf(key, s'.api.labs[key], k, s'.api.lans[k]);
    var link :| link in s'.api.labs[key].links && k == LanKey(key, link);
    assert link in Elems(LinkNames(s.pc.lab));
    var j :| 0 <= j < |LinkNames(s.pc.lab)| && LinkNames(s.pc.lab)[j] == link;
    LinkNamesDistinct(s.pc.lab);
    EnsuredLan(s, key, uid, first, j);
    LanPersists(s, es, k, key);
  }

  lemma InitGuarded(s: State)
    requires Init(s)
    ensures Guarded(s.api) && Present(s) && !Collides(s.api)
  {
  }
}

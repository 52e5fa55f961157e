/** What holds over whole histories, whatever names the labs have: numbers stay unique and never change,
    a lab outlives the finalizers of its LANs, and ensuring a lab touches nothing of others. */
module History {
  import opened Text
  import opened Names
  import opened Allocator
  import opened Cluster
  import opened ClusterInvariant
  import opened ClusterSteps

  // ---- what one step of the controller can do ----

  /** The stored state after a step of the controller: unchanged, or one write at the controller's position. */
  ghost predicate Effect(s: State, api: Api) {
    || api == s.api
    || (s.pc.AddFinalizer? && WritesLab(s, api, s.pc.lab.finalizers + {FinalizerName}))
    || (s.pc.DropFinalizer? && WritesLab(s, api, s.pc.lab.finalizers - {FinalizerName}))
    || CreatesLan(s, api)
    || CreatesNad(s, api)
    || StripsLan(s, api)
  }

  ghost predicate WritesLab(s: State, api: Api, finalizers: set<string>)
    requires s.pc.AddFinalizer? || s.pc.DropFinalizer?
  {
    && s.pc.key in s.api.labs && s.api.labs[s.pc.key] == s.pc.lab
    && api == s.api.(labs := StoreLab(s.api.labs, s.pc.key, s.pc.lab.(finalizers := finalizers)))
  }

  ghost predicate CreatesLan(s: State, api: Api) {
    && s.pc.CreateLan? && !s.pc.stored && |s.pc.used| < |s.pc.lab.links|
    && AddsLan(s.api, api, LanKey(s.pc.key, CurrentLink(s.pc.lab, s.pc.used)), s.pc.lan.(uid := s.api.nextUid))
  }

  ghost predicate CreatesNad(s: State, api: Api) {
    && s.pc.CreateNad? && s.pc.plan != []
    && AddsNad(s.api, api, s.pc.plan[0].key, NewNad(s.pc.key, s.pc.lab, s.pc.plan[0].index))
  }

  ghost predicate StripsLan(s: State, api: Api) {
    && s.pc.UpdateLan? && s.pc.found.Some?
    && var k := LanKey(s.pc.key, s.pc.link);
       && k in s.api.lans && s.api.lans[k] == s.pc.found.value
       && api == s.api.(lans := StoreLan(s.api.lans, k, s.pc.found.value.(
                                           finalizers := s.pc.found.value.finalizers - {FinalizerName})))
  }

  lemma EffectOfNext(s: State, e: Event)
    requires !Environment(e)
    ensures Effect(s, Next(s, e).api)
  {
  }

  lemma CallOrigin(s: State, o: Outcome)
    requires !s.pc.AddFinalizer? && Ensuring(CallStep(s, o).pc)
    ensures Ensuring(s.pc) && CallStep(s, o).pc.key == s.pc.key && CallStep(s, o).pc.lab == s.pc.lab
  {
  }

  lemma AddFinalizerOrigin(s: State, o: Outcome)
    requires s.pc.AddFinalizer? && !s.pc.lab.deleting && Ensuring(CallStep(s, o).pc)
    ensures var pc := CallStep(s, o).pc;
            pc.key in s.api.labs && !s.api.labs[pc.key].deleting && s.api.labs[pc.key].uid == pc.lab.uid
  {
  }

  /** A reconcile is ensuring a lab because it was already, or because it just read the lab or gave it the
      finalizer, at a moment when the lab was not marked. */
  lemma EnsuringOrigin(s: State, e: Event)
    requires s.pc.AddFinalizer? ==> !s.pc.lab.deleting
    requires Ensuring(Next(s, e).pc)
    ensures var pc := Next(s, e).pc;
            || (Ensuring(s.pc) && pc.key == s.pc.key && pc.lab == s.pc.lab)
            || (pc.key in s.api.labs && !s.api.labs[pc.key].deleting && s.api.labs[pc.key].uid == pc.lab.uid)
  {
    if e.Call? {
      if s.pc.AddFinalizer? {
        AddFinalizerOrigin(s, e.outcome);
      } else {
        CallOrigin(s, e.outcome);
      }
    }
  }

  // ---- uniqueness ----

  /** In every reachable state no two LANs share a VNI and no two bridges share an index. */
  lemma NumbersAreUnique(s: State, es: seq<Event>)
    requires Init(s)
    ensures DistinctVnis(Run(s, es).api) && DistinctIndexes(Run(s, es).api)
  {
    InitInv(s);
    RunKeeps(s, es);
  }

  /** The bridge carries a 24-bit index other than 0 as its label. */
  predicate IsNumbered(nad: Nad) { LabelIndex(nad).Some? && 1 <= LabelIndex(nad).value <= MaxIndex }

  /** Every bridge is one of the first, or carries its index. */
  ghost predicate SinceNumbered(api: Api, first: map<Key, Nad>) {
    forall k | k in api.nads :: (k in first && api.nads[k] == first[k]) || IsNumbered(api.nads[k])
  }

  lemma NewNadIsNumbered(key: Key, lab: Lab, index: nat)
    requires 1 <= index <= MaxIndex
    ensures IsNumbered(NewNad(key, lab, index))
  {
    AtoiItoa(index);
  }

  lemma EffectKeepsNumbered(s: State, api: Api, first: map<Key, Nad>)
    requires Effect(s, api) && SinceNumbered(s.api, first) && (s.pc.CreateNad? ==> PcInv(s.api, s.pc))
    ensures SinceNumbered(api, first)
  {
    if CreatesNad(s, api) {
      NewNadIsNumbered(s.pc.key, s.pc.lab, s.pc.plan[0].index);
    }
  }

  lemma NumberedStays(s: State, e: Event, first: map<Key, Nad>)
    requires Inv(s) && SinceNumbered(s.api, first)
    ensures SinceNumbered(Next(s, e).api, first)
  {
    if Environment(e) {
      EnvironmentChanges(s.api, e);
    } else {
      EffectOfNext(s, e);
      EffectKeepsNumbered(s, Next(s, e).api, first);
    }
  }

  lemma {:induction false} RunNumbered(s: State, es: seq<Event>, first: map<Key, Nad>)
    requires Inv(s) && SinceNumbered(s.api, first)
    ensures SinceNumbered(Run(s, es).api, first)
    decreases |es|
  {
    if es != [] {
      RunNumbered(s, es[..|es| - 1], first);
      RunKeeps(s, es[..|es| - 1]);
      NumberedStays(Run(s, es[..|es| - 1]), es[|es| - 1], first);
    }
  }

  /** In every reachable state each bridge the operator has made carries an index from 1 to 2^24-1 as its label, and no other
      bridge has it. */
  lemma BridgesAreNumbered(s: State, es: seq<Event>, k: Key)
    requires Init(s) && k in Run(s, es).api.nads
    requires !(k in s.api.nads && Run(s, es).api.nads[k] == s.api.nads[k])
    ensures var nads := Run(s, es).api.nads;
            && LabelIndex(nads[k]).Some? && 1 <= LabelIndex(nads[k]).value < 0x100_0000
            && forall j | j in nads && j != k :: LabelIndex(nads[j]) != LabelIndex(nads[k])
  {
    InitInv(s);
    NumbersAreUnique(s, es);
    RunNumbered(s, es, s.api.nads);
  }

  predicate Derived(lan: Lan) { lan.spokes == Spokes(lan.vni, |lan.spokes|) }

  /** Every LAN made since UID `first` was handed out has the spokes derived from its VNI. */
  ghost predicate SinceDerived(api: Api, first: nat) { forall k | k in api.lans && api.lans[k].uid >= first :: Derived(api.lans[k]) }

  lemma EffectKeepsDerived(s: State, api: Api, first: nat)
    requires Effect(s, api) && SinceDerived(s.api, first) && (s.pc.CreateLan? ==> PcInv(s.api, s.pc))
    ensures SinceDerived(api, first)
  {
    if CreatesLan(s, api) {
      assert Derived(s.pc.lan);
    }
  }

  lemma DerivedStays(s: State, e: Event, first: nat)
    requires Inv(s) && SinceDerived(s.api, first)
    ensures SinceDerived(Next(s, e).api, first)
  {
    if Environment(e) {
      EnvironmentChanges(s.api, e);
    } else {
      EffectOfNext(s, e);
      EffectKeepsDerived(s, Next(s, e).api, first);
    }
  }

  lemma {:induction false} RunDerived(s: State, es: seq<Event>, first: nat)
    requires Inv(s) && SinceDerived(s.api, first)
    ensures SinceDerived(Run(s, es).api, first)
    decreases |es|
  {
    if es != [] {
      RunDerived(s, es[..|es| - 1], first);
      RunKeeps(s, es[..|es| - 1]);
      DerivedStays(Run(s, es[..|es| - 1]), es[|es| - 1], first);
    }
  }

  /** In every reachable state different LANs the operator has made share no spoke name, those included whose lab is gone. */
  lemma SpokesAreUnique(s: State, es: seq<Event>, j: Key, k: Key, x: nat, y: nat)
    requires Init(s)
    requires var api := Run(s, es).api;
             && j in api.lans && k in api.lans && j != k
             && api.lans[j].uid >= s.api.nextUid && api.lans[k].uid >= s.api.nextUid
             && x < |api.lans[j].spokes| && y < |api.lans[k].spokes|
    ensures Run(s, es).api.lans[j].spokes[x] != Run(s, es).api.lans[k].spokes[y]
  {
    InitInv(s);
    RunKeeps(s, es);
    NothingSince(s);
    RunDerived(s, es, s.api.nextUid);
    SpokesDiffer(Run(s, es).api.lans[j], Run(s, es).api.lans[k], x, y);
  }

  lemma NothingSince(s: State)
    requires Inv(s)
    ensures SinceDerived(s.api, s.api.nextUid)
  {
  }

  lemma SpokesDiffer(a: Lan, b: Lan, x: nat, y: nat)
    requires a.vni != b.vni && a.spokes == Spokes(a.vni, |a.spokes|) && b.spokes == Spokes(b.vni, |b.spokes|)
    requires x < |a.spokes| && y < |b.spokes|
    ensures a.spokes[x] != b.spokes[y]
  {
    assert a.spokes[x] == SpokeName(a.vni, x) && b.spokes[y] == SpokeName(b.vni, y);
    if SpokeName(a.vni, x) == SpokeName(b.vni, y) {
      SpokeNameInjective(a.vni, x, b.vni, y);
    }
  }

  // ---- what never changes ----

  /** Every LAN of b either is a LAN of a, unchanged in what identifies it, or was created since. */
  ghost predicate LansContinue(a: Api, b: Api) {
    && a.nextUid <= b.nextUid
    && forall k | k in b.lans :: (k in a.lans && SameLan(a.lans[k], b.lans[k])) || b.lans[k].uid >= a.nextUid
  }

  /** The same for labs, whose specification never changes and whose deletion is never taken back. */
  ghost predicate LabsContinue(a: Api, b: Api) {
    && a.nextUid <= b.nextUid
    && forall key | key in b.labs ::
         || (key in a.labs && SameLab(a.labs[key], b.labs[key]) && (a.labs[key].deleting ==> b.labs[key].deleting))
         || b.labs[key].uid >= a.nextUid
  }

  lemma EnvironmentContinues(api: Api, e: Event)
    requires Uids(api) && Environment(e)
    ensures LansContinue(api, EnvironmentStep(api, e)) && LabsContinue(api, EnvironmentStep(api, e))
  {
    EnvironmentChanges(api, e);
  }

  lemma LabWriteContinues(s: State, api: Api, finalizers: set<string>)
    requires (s.pc.AddFinalizer? || s.pc.DropFinalizer?) && WritesLab(s, api, finalizers)
    ensures LansContinue(s.api, api) && LabsContinue(s.api, api)
  {
  }

  lemma EffectContinues(s: State, api: Api)
    requires Effect(s, api)
    ensures LansContinue(s.api, api) && LabsContinue(s.api, api)
  {
    if s.pc.AddFinalizer? && api != s.api {
      LabWriteContinues(s, api, s.pc.lab.finalizers + {FinalizerName});
    } else if s.pc.DropFinalizer? && api != s.api {
      LabWriteContinues(s, api, s.pc.lab.finalizers - {FinalizerName});
    }
  }

  lemma NextContinues(s: State, e: Event)
    requires Uids(s.api)
    ensures LansContinue(s.api, Next(s, e).api) && LabsContinue(s.api, Next(s, e).api)
  {
    if Environment(e) {
      EnvironmentContinues(s.api, e);
    } else {
      EffectOfNext(s, e);
      EffectContinues(s, Next(s, e).api);
    }
  }

  lemma {:induction false} RunContinues(s: State, es: seq<Event>)
    requires Inv(s)
    ensures LansContinue(s.api, Run(s, es).api) && LabsContinue(s.api, Run(s, es).api)
    decreases |es|
  {
    if es != [] {
      RunContinues(s, es[..|es| - 1]);
      RunKeeps(s, es[..|es| - 1]);
      NextContinues(Run(s, es[..|es| - 1]), es[|es| - 1]);
    }
  }

  /** A LAN's key, owner, VNI and spoke list never change while it exists. */
  lemma LanNeverChanges(s: State, es: seq<Event>, j: Key, k: Key)
    requires Inv(s) && j in s.api.lans && k in Run(s, es).api.lans
    requires s.api.lans[j].uid == Run(s, es).api.lans[k].uid
    ensures j == k && SameLan(s.api.lans[j], Run(s, es).api.lans[k])
  {
    RunContinues(s, es);
  }

  // ---- finalizers ----

  /** As long as a LAN carries the lab finalizer, the lab that owns it exists and carries it. Read backwards:
      a lab drops its finalizer, or goes away, only after all its LANs dropped theirs. */
  lemma LabOutlivesItsLans(s: State, es: seq<Event>, k: Key)
    requires Init(s) && k in Run(s, es).api.lans && HasFinalizer(Run(s, es).api.lans[k].finalizers)
    ensures var api := Run(s, es).api;
            exists key :: key in api.labs && HasFinalizer(api.labs[key].finalizers) && IsLanOf(key, api.labs[key], k, api.lans[k])
  {
    InitInv(s);
    RunKeeps(s, es);
    var api := Run(s, es).api;
    var key :| BackedBy(api, k, key);
    assert IsLanOf(key, api.labs[key], k, api.lans[k]);
  }

  // ---- deletion ----

  /** The reconcile may still create LANs: it has yet to pass the last link. */
  predicate Allocating(pc: Pc) { pc.ListVnis? || Linking(pc) }

  /** The lab with this UID is being deleted or gone. */
  ghost predicate Marked(api: Api, uid: nat) {
    uid < api.nextUid && forall key | key in api.labs && api.labs[key].uid == uid :: api.labs[key].deleting
  }

  /** Besides, no reconcile that began before is still at its links. */
  ghost predicate Over(s: State, uid: nat) {
    && Marked(s.api, uid)
    && (Allocating(s.pc) ==> s.pc.lab.uid != uid)
  }

  ghost predicate NoNewLanOf(a: Api, b: Api, uid: nat) {
    forall k | k in b.lans && OwnedBy(b.lans[k].owners, uid) :: k in a.lans && SameLan(a.lans[k], b.lans[k])
  }

  /** A reconcile that has passed the links does not come back to them. */
  lemma NetworkingStays(s: State, e: Event)
    requires Networking(s.pc)
    ensures !Allocating(Next(s, e).pc)
  {
    if e.Call? && !s.pc.PickNode? {
      NetworkingCall(s, e.outcome);
    }
  }

  lemma OverStays(s: State, e: Event, uid: nat)
    requires Inv(s) && Over(s, uid)
    ensures Over(Next(s, e), uid)
  {
    NextContinues(s, e);
    if Allocating(Next(s, e).pc) {
      EnsuringOrigin(s, e);
      if Networking(s.pc) {
        NetworkingStays(s, e);
      }
    }
  }

  lemma EffectCreatesNothing(s: State, api: Api, uid: nat)
    requires Effect(s, api) && Over(s, uid)
    requires s.pc.CreateLan? ==> PcInv(s.api, s.pc)
    ensures NoNewLanOf(s.api, api, uid)
  {
    if CreatesLan(s, api) {
      assert s.pc.lan.owners == [LabRef(s.pc.key, s.pc.lab)];
    }
  }

  lemma OverCreatesNothing(s: State, e: Event, uid: nat)
    requires Inv(s) && Over(s, uid)
    ensures NoNewLanOf(s.api, Next(s, e).api, uid)
  {
    if Environment(e) {
      EnvironmentChanges(s.api, e);
    } else {
      EffectOfNext(s, e);
      EffectCreatesNothing(s, Next(s, e).api, uid);
    }
  }

  /** Once deletion has begun, and the reconcile in flight at that moment has passed the links or ended, no LAN is ever
      created for the lab again. */
  lemma {:induction false} NoLanAfterDeletion(s: State, es: seq<Event>, uid: nat)
    requires Inv(s) && Over(s, uid)
    ensures Over(Run(s, es), uid) && NoNewLanOf(s.api, Run(s, es).api, uid)
    decreases |es|
  {
    if es != [] {
      var before := Run(s, es[..|es| - 1]);
      NoLanAfterDeletion(s, es[..|es| - 1], uid);
      RunKeeps(s, es[..|es| - 1]);
      OverStays(before, es[|es| - 1], uid);
      OverCreatesNothing(before, es[|es| - 1], uid);
    }
  }

  /** The reconcile in flight matters: a user may mark the lab between the reconcile's look at a missing LAN
      and its creation, and the LAN is created all the same. */
  lemma DeletionRace(s: State)
    requires Inv(s) && s.pc.CreateLan? && !s.pc.stored
    ensures var s' := Next(Next(s, DeleteLab(s.pc.key)), Call(Done));
            var k := LanKey(s.pc.key, CurrentLink(s.pc.lab, s.pc.used));
            && s.pc.key in s'.api.labs && s'.api.labs[s.pc.key].deleting && s'.api.labs[s.pc.key].uid == s.pc.lab.uid
            && k !in s.api.lans && k in s'.api.lans && OwnedBy(s'.api.lans[k].owners, s.pc.lab.uid)
  {
    var mid := Next(s, DeleteLab(s.pc.key));
    assert s.pc.lan.owners[0].uid == s.pc.lab.uid;
    CreationSucceeds(mid, Done);
  }

  lemma CreateLanCallDone(s: State, o: Outcome)
    requires s.pc.CreateLan? && !s.pc.stored && |s.pc.used| < |s.pc.lab.links| && !o.Failed?
    requires LanKey(s.pc.key, CurrentLink(s.pc.lab, s.pc.used)) !in s.api.lans
    ensures var k := LanKey(s.pc.key, CurrentLink(s.pc.lab, s.pc.used));
            CreateLanCall(s.api, s.pc, o).api ==
            s.api.(lans := s.api.lans[k := s.pc.lan.(uid := s.api.nextUid)], nextUid := s.api.nextUid + 1)
  {
  }

  lemma CallIsStep(s: State, o: Outcome)
    ensures Next(s, Call(o)) == CallStep(s, o)
  {
  }

  lemma CreateLanIsStep(s: State, o: Outcome)
    requires s.pc.CreateLan?
    ensures CallStep(s, o) == CreateLanCall(s.api, s.pc, o)
  {
    assert !s.pc.AddFinalizer? && !s.pc.ListVnis? && !s.pc.GetLan? && !s.pc.PutLan?;
  }

  lemma CreateLanIsNext(s: State, o: Outcome)
    requires s.pc.CreateLan?
    ensures Next(s, Call(o)) == CreateLanCall(s.api, s.pc, o)
  {
    CallIsStep(s, o);
    CreateLanIsStep(s, o);
  }

  lemma CreationSucceeds(s: State, o: Outcome)
    requires s.pc.CreateLan? && !s.pc.stored && |s.pc.used| < |s.pc.lab.links| && !o.Failed?
    requires LanKey(s.pc.key, CurrentLink(s.pc.lab, s.pc.used)) !in s.api.lans
    ensures CreatesLan(s, Next(s, Call(o)).api)
  {
    CreateLanCallDone(s, o);
    CreateLanIsNext(s, o);
  }

  ghost predicate NewLanAt(a: Api, b: Api, uid: nat, k: Key) {
    k in b.lans && k !in a.lans && OwnedBy(b.lans[k].owners, uid)
  }

  lemma FailedCallCreatesNothing(s: State, e: Event)
    requires s.pc.CreateLan? && !(e.Call? && !e.outcome.Failed?) && !Environment(e)
    ensures Next(s, e).api == s.api
  {
    if e.Call? {
      CreateLanIsNext(s, e.outcome);
    }
  }

  lemma EffectCreatesFor(s: State, api: Api, uid: nat, k: Key)
    requires Effect(s, api) && NewLanAt(s.api, api, uid, k) && (s.pc.CreateLan? ==> PcInv(s.api, s.pc))
    ensures s.pc.CreateLan? && !s.pc.stored && s.pc.lab.uid == uid
  {
    if CreatesLan(s, api) {
      assert s.pc.lan.owners == [LabRef(s.pc.key, s.pc.lab)];
    }
  }

  /** Exactly when a step of the controller creates a LAN for a lab, being deleted or not: when its reconcile has found the
      LAN missing, right before, and the call is not refused. Nothing looks at the deletion mark again. */
  lemma LanCreatedIff(s: State, e: Event, uid: nat)
    requires Inv(s) && !Environment(e)
    ensures (exists k :: NewLanAt(s.api, Next(s, e).api, uid, k))
            <==> s.pc.CreateLan? && !s.pc.stored && s.pc.lab.uid == uid && e.Call? && !e.outcome.Failed?
  {
    if k :| NewLanAt(s.api, Next(s, e).api, uid, k) {
      EffectOfNext(s, e);
      EffectCreatesFor(s, Next(s, e).api, uid, k);
      if !(e.Call? && !e.outcome.Failed?) {
        FailedCallCreatesNothing(s, e);
      }
    }
    if s.pc.CreateLan? && !s.pc.stored && s.pc.lab.uid == uid && e.Call? && !e.outcome.Failed? {
      CreationSucceeds(s, e.outcome);
      assert s.pc.lan.owners[0].uid == uid;
      assert NewLanAt(s.api, Next(s, e).api, uid, LanKey(s.pc.key, CurrentLink(s.pc.lab, s.pc.used)));
    }
  }

  // ---- ensuring touches nothing that exists ----

  ghost predicate OnlyAdds(pc: Pc, a: Api, b: Api)
    requires Ensuring(pc)
  {
    && b.labs == a.labs
    && (forall k | k in a.lans :: k in b.lans && b.lans[k] == a.lans[k])
    && (forall k | k in a.nads :: k in b.nads && b.nads[k] == a.nads[k])
    && (forall k | k in b.lans && k !in a.lans :: b.lans[k].owners == [LabRef(pc.key, pc.lab)])
    && (forall k | k in b.nads && k !in a.nads :: b.nads[k].owners == [LabRef(pc.key, pc.lab)])
  }

  lemma EffectOnlyAdds(s: State, api: Api)
    requires Effect(s, api) && Ensuring(s.pc) && PcInv(s.api, s.pc)
    ensures OnlyAdds(s.pc, s.api, api)
  {
  }

  /** While it ensures a lab the controller changes and removes nothing: it only adds objects, owned by the lab. */
  lemma EnsuringOnlyAdds(s: State, e: Event)
    requires Inv(s) && Ensuring(s.pc) && !Environment(e)
    ensures OnlyAdds(s.pc, s.api, Next(s, e).api)
  {
    EffectOfNext(s, e);
    EffectOnlyAdds(s, Next(s, e).api);
  }

  /** How a reconcile moves on to the next link. */
  lemma LinkPassed(s: State, e: Event)
    requires Linking(s.pc) && |s.pc.used| < |s.pc.lab.links|
    requires var pc := Next(s, e).pc; (Linking(pc) || Networking(pc)) && |pc.used| > |s.pc.used|
    ensures e == Call(Done) && (s.pc.PutLan? || s.pc.CreateLan?)
    ensures Next(s, e).pc.used == s.pc.used + [s.pc.lan.vni]
    ensures Next(s, e).pc.key == s.pc.key && Next(s, e).pc.lab == s.pc.lab
    ensures var k := LanKey(s.pc.key, CurrentLink(s.pc.lab, s.pc.used));
            if s.pc.PutLan? then Next(s, e).api == s.api && k in s.api.lans && OwnedBy(s.api.lans[k].owners, s.pc.lab.uid)
            else CreatesLan(s, Next(s, e).api)
  {
    assert !Environment(e);
    assert e.Call?;
    if s.pc.PutLan? {
      assert Next(s, e) == State(s.api, PutLanCall(s.api, s.pc, e.outcome));
    } else if s.pc.CreateLan? {
      CreateLanIsNext(s, e.outcome);
      CreateLanPassed(s, e.outcome);
    }
  }

  lemma CreateLanPassed(s: State, o: Outcome)
    requires s.pc.CreateLan? && |s.pc.used| < |s.pc.lab.links|
    requires !CreateLanCall(s.api, s.pc, o).pc.Idle?
    ensures o.Done? && CreatesLan(s, CreateLanCall(s.api, s.pc, o).api)
    ensures CreateLanCall(s.api, s.pc, o).pc == Linked(s.pc.key, s.pc.lab, s.pc.vnis, s.pc.used + [s.pc.lan.vni])
  {
  }

  /** EnsureLinks passes a link only when the LAN of that name exists, belongs to this lab's UID and has the VNI
      the spokes are named after, whoever else uses the name. */
  lemma LinkPassedIsOwned(s: State, e: Event)
    requires Inv(s) && Linking(s.pc)
    requires var pc := Next(s, e).pc; (Linking(pc) || Networking(pc)) && |pc.used| > |s.pc.used|
    ensures var api := Next(s, e).api;
            var k := LanKey(s.pc.key, CurrentLink(s.pc.lab, s.pc.used));
            && k in api.lans && s.pc.key in api.labs
            && IsLanOf(s.pc.key, api.labs[s.pc.key], k, api.lans[k])
            && Next(s, e).pc.used == s.pc.used + [api.lans[k].vni]
  {
    LinkPassed(s, e);
    NextKeeps(s, e);
    var api, k := Next(s, e).api, LanKey(s.pc.key, CurrentLink(s.pc.lab, s.pc.used));
    PassedLanIsOwned(s, api);
    assert IsLanOf(s.pc.key, api.labs[s.pc.key], k, api.lans[k]);
  }

  lemma PassedLanIsOwned(s: State, api: Api)
    requires PcInv(s.api, s.pc) && (s.pc.PutLan? || s.pc.CreateLan?)
    requires var k := LanKey(s.pc.key, CurrentLink(s.pc.lab, s.pc.used));
             if s.pc.PutLan? then api == s.api && k in s.api.lans && OwnedBy(s.api.lans[k].owners, s.pc.lab.uid)
             else CreatesLan(s, api)
    ensures var k := LanKey(s.pc.key, CurrentLink(s.pc.lab, s.pc.used));
            && s.pc.key in api.labs && api.labs[s.pc.key].uid == s.pc.lab.uid
            && k in api.lans && OwnedBy(api.lans[k].owners, s.pc.lab.uid) && api.lans[k].vni == s.pc.lan.vni
  {
    if s.pc.CreateLan? {
      assert s.pc.lan.owners == [LabRef(s.pc.key, s.pc.lab)];
      assert s.pc.lan.owners[0].uid == s.pc.lab.uid;
    }
  }
}

/** A lab marked for deletion while a reconcile is still at its links: exactly when it can still get a LAN. */
module Race {
  import opened Allocator
  import opened Cluster
  import opened ClusterInvariant
  import opened ClusterSteps
  import opened History
  import opened Progress

  // ---- what is still possible ----

  /** The LAN is missing, or nothing but other finalizers holds it, so that somebody may remove it. */
  ghost predicate CanBeMissing(api: Api, k: Key) { k in api.lans ==> !HasFinalizer(api.lans[k].finalizers) }

  /** The reconcile can get past link number `j` without creating anything: its LAN is there, and the lab's. */
  ghost predicate Passable(api: Api, key: Key, lab: Lab, j: nat)
    requires j < |LinkNames(lab)|
  {
    var k := LanKey(key, LinkNames(lab)[j]);
    k in api.lans && OwnedBy(api.lans[k].owners, lab.uid)
  }

  ghost predicate CanMissAt(api: Api, key: Key, lab: Lab, from: nat, i: nat) {
    && from <= i < |LinkNames(lab)| && CanBeMissing(api, LanKey(key, LinkNames(lab)[i]))
    && forall j | from <= j < i :: Passable(api, key, lab, j)
  }

  /** Some link from number `from` on has no LAN or a removable one, and the links before it can be passed. */
  ghost predicate CanMiss(api: Api, key: Key, lab: Lab, from: nat) {
    exists i: nat :: CanMissAt(api, key, lab, from, i)
  }

  /** The LANs whose removal frees a number. One beyond the range frees none: while it is there, one number more is in reach. */
  ghost function Spare(lans: map<Key, Lan>): set<Key> {
    set k | k in lans && !HasFinalizer(lans[k].finalizers) && lans[k].vni <= MaxIndex
  }

  /** A reconcile of the lab is under way that may still find a LAN missing and create it. */
  ghost predicate MayCreate(s: State, uid: nat) {
    var pc := s.pc;
    && Allocating(pc) && pc.lab.uid == uid
    && if pc.ListVnis? then
         |Free(UsedVnis(s.api.lans - Spare(s.api.lans)))| >= |pc.lab.links| && CanMiss(s.api, pc.key, pc.lab, 0)
       else if pc.GetLan? then CanMiss(s.api, pc.key, pc.lab, |pc.used|)
       else !pc.stored || (pc.PutLan? && PassesOn(s.api, pc.key, pc.lab, |pc.used|))
  }

  ghost predicate PassesOn(api: Api, key: Key, lab: Lab, at: nat) {
    at < |LinkNames(lab)| && Passable(api, key, lab, at) && CanMiss(api, key, lab, at + 1)
  }

  // ---- nothing makes it possible again ----

  lemma CanMissEarlier(api: Api, key: Key, lab: Lab, at: nat)
    requires PassesOn(api, key, lab, at)
    ensures CanMiss(api, key, lab, at)
  {
    var i: nat :| CanMissAt(api, key, lab, at + 1, i);
    assert CanMissAt(api, key, lab, at, i);
  }

  /** LANs only disappear, and only those without the lab finalizer. */
  ghost predicate Fewer(lans: map<Key, Lan>, lans': map<Key, Lan>) {
    && (forall k | k in lans' :: k in lans && lans'[k].owners == lans[k].owners && lans'[k].vni == lans[k].vni
                                 && (HasFinalizer(lans'[k].finalizers) <==> HasFinalizer(lans[k].finalizers)))
    && (forall k | k in lans && HasFinalizer(lans[k].finalizers) :: k in lans')
  }

  lemma EnvironmentFewer(api: Api, api': Api)
    requires EnvironmentChange(api, api')
    ensures Fewer(api.lans, api'.lans)
  {
  }

  lemma CouldMissAt(api: Api, api': Api, key: Key, lab: Lab, from: nat, i: nat)
    requires Fewer(api.lans, api'.lans) && CanMissAt(api', key, lab, from, i)
    ensures CanMissAt(api, key, lab, from, i)
  {
    forall j | from <= j < i
      ensures Passable(api, key, lab, j)
    {
      assert Passable(api', key, lab, j);
    }
  }

  lemma CouldMiss(api: Api, api': Api, key: Key, lab: Lab, from: nat)
    requires Fewer(api.lans, api'.lans) && CanMiss(api', key, lab, from)
    ensures CanMiss(api, key, lab, from)
  {
    var i: nat :| CanMissAt(api', key, lab, from, i);
    CouldMissAt(api, api', key, lab, from, i);
  }

  lemma CouldPass(api: Api, api': Api, key: Key, lab: Lab, at: nat)
    requires Fewer(api.lans, api'.lans) && PassesOn(api', key, lab, at)
    ensures PassesOn(api, key, lab, at)
  {
    CouldMiss(api, api', key, lab, at + 1);
  }

  lemma SubsetSize(a: set<nat>, b: set<nat>)
    requires a <= b
    ensures |a| <= |b|
  {
    assert b == a + (b - a);
  }

  /** Fewer numbers in use, but every one beyond the range kept: at least as many are free. */
  lemma FreeGrows(a: set<nat>, b: set<nat>)
    requires forall v | v in b :: v in a || v > MaxIndex
    requires forall v | v in a && v > MaxIndex :: v in b
    ensures |Free(a)| <= |Free(b)|
  {
    assert Limit(a) <= Limit(b) <= MaxIndex;
    SubsetSize(Free(a), Free(b));
  }

  lemma SpareFrees(lans: map<Key, Lan>)
    ensures |Free(UsedVnis(lans))| <= |Free(UsedVnis(lans - Spare(lans)))|
  {
    var rest := lans - Spare(lans);
    forall v | v in UsedVnis(lans) && v > MaxIndex
      ensures v in UsedVnis(rest)
    {
      var k :| k in lans && lans[k].vni == v;
      assert k in rest && rest[k].vni == v;
    }
    FreeGrows(UsedVnis(lans), UsedVnis(rest));
  }

  lemma FreeLess(lans: map<Key, Lan>, lans': map<Key, Lan>)
    requires Fewer(lans, lans')
    ensures |Free(UsedVnis(lans' - Spare(lans')))| <= |Free(UsedVnis(lans - Spare(lans)))|
  {
    var a, b := lans' - Spare(lans'), lans - Spare(lans);
    forall v | v in UsedVnis(b) && v <= MaxIndex
      ensures v in UsedVnis(a)
    {
      var k :| k in b && b[k].vni == v;
      assert k in a && a[k].vni == v;
    }
    forall v | v in UsedVnis(a)
      ensures v in UsedVnis(b)
    {
      var k :| k in a && a[k].vni == v;
      assert k in b && b[k].vni == v;
    }
    FreeGrows(UsedVnis(a), UsedVnis(b));
  }

  lemma MayHaveCreated(api: Api, api': Api, pc: Pc, uid: nat)
    requires EnvironmentChange(api, api') && MayCreate(State(api', pc), uid)
    ensures MayCreate(State(api, pc), uid)
  {
    EnvironmentFewer(api, api');
    if pc.ListVnis? {
      FreeLess(api.lans, api'.lans);
      CouldMiss(api, api', pc.key, pc.lab, 0);
    } else if pc.GetLan? {
      CouldMiss(api, api', pc.key, pc.lab, |pc.used|);
    } else if pc.PutLan? && pc.stored {
      CouldPass(api, api', pc.key, pc.lab, |pc.used|);
    }
  }

  // ---- the calls ----

  lemma ListedBefore(s: State, o: Outcome, uid: nat)
    requires s.pc.ListVnis? && MayCreate(Next(s, Call(o)), uid)
    ensures MayCreate(s, uid)
  {
    CallIsStep(s, o);
    assert Next(s, Call(o)) == State(s.api, ListVnisCall(s.api, s.pc, o));
    AllocateExact(UsedVnis(s.api.lans), |s.pc.lab.links|);
    SpareFrees(s.api.lans);
  }

  lemma ReadBefore(s: State, o: Outcome, uid: nat)
    requires Inv(s) && s.pc.GetLan? && MayCreate(Next(s, Call(o)), uid)
    ensures MayCreate(s, uid)
  {
    var pc, pc' := s.pc, Next(s, Call(o)).pc;
    CallIsStep(s, o);
    assert Next(s, Call(o)) == State(s.api, GetLanCall(s.api, pc, o));
    LinkNamesDistinct(pc.lab);
    if pc'.stored {
      CanMissEarlier(s.api, pc.key, pc.lab, |pc.used|);
    } else {
      assert CanMissAt(s.api, pc.key, pc.lab, |pc.used|, |pc.used|);
    }
  }

  lemma FoundBefore(s: State, o: Outcome, uid: nat)
    requires s.pc.PutLan? && |s.pc.used| < |LinkNames(s.pc.lab)| && MayCreate(Next(s, Call(o)), uid)
    ensures MayCreate(s, uid)
  {
    PutLanIsNext(s, o);
    FoundAt(s.api, s.pc, o, uid);
  }

  lemma PutLanIsNext(s: State, o: Outcome)
    requires s.pc.PutLan?
    ensures Next(s, Call(o)) == State(s.api, PutLanCall(s.api, s.pc, o))
  {
    CallIsStep(s, o);
  }

  lemma FoundAt(api: Api, pc: Pc, o: Outcome, uid: nat)
    requires pc.PutLan? && |pc.used| < |LinkNames(pc.lab)| && MayCreate(State(api, PutLanCall(api, pc, o)), uid)
    ensures MayCreate(State(api, pc), uid)
  {
    if PutLanCall(api, pc, o).GetLan? {
      PassedWhenFound(api, pc, o);
    } else {
      CreateWhenMissing(api, pc, o);
    }
  }

  lemma PassedWhenFound(api: Api, pc: Pc, o: Outcome)
    requires pc.PutLan? && |pc.used| < |LinkNames(pc.lab)| && PutLanCall(api, pc, o).GetLan?
    ensures Passable(api, pc.key, pc.lab, |pc.used|) && |PutLanCall(api, pc, o).used| == |pc.used| + 1
  {
  }

  lemma CreateWhenMissing(api: Api, pc: Pc, o: Outcome)
    requires pc.PutLan? && Linking(PutLanCall(api, pc, o)) && !PutLanCall(api, pc, o).GetLan?
    ensures PutLanCall(api, pc, o).CreateLan? && PutLanCall(api, pc, o).stored == pc.stored
  {
  }

  lemma CreatedBefore(s: State, o: Outcome, uid: nat)
    requires s.pc.CreateLan? && MayCreate(Next(s, Call(o)), uid)
    ensures MayCreate(s, uid)
  {
    CreateLanIsNext(s, o);
  }

  lemma CalledBefore(s: State, o: Outcome, uid: nat)
    requires Inv(s) && Allocating(s.pc) && MayCreate(Next(s, Call(o)), uid)
    ensures MayCreate(s, uid)
  {
    if s.pc.ListVnis? {
      ListedBefore(s, o, uid);
    } else if s.pc.GetLan? {
      ReadBefore(s, o, uid);
    } else if s.pc.PutLan? {
      LinkNamesDistinct(s.pc.lab);
      FoundBefore(s, o, uid);
    } else {
      CreatedBefore(s, o, uid);
    }
  }

  /** No reconcile starts on a marked lab to ensure it. */
  lemma AllocatedBefore(s: State, e: Event, uid: nat)
    requires Inv(s) && Marked(s.api, uid) && Allocating(Next(s, e).pc) && Next(s, e).pc.lab.uid == uid
    ensures Allocating(s.pc) && s.pc.lab.uid == uid
  {
    EnsuringOrigin(s, e);
    if Networking(s.pc) {
      NetworkingStays(s, e);
    }
  }

  lemma PossibleBefore(s: State, e: Event, uid: nat)
    requires Inv(s) && Marked(s.api, uid) && MayCreate(Next(s, e), uid)
    ensures MayCreate(s, uid)
  {
    AllocatedBefore(s, e, uid);
    if Environment(e) {
      EnvironmentChanges(s.api, e);
      MayHaveCreated(s.api, Next(s, e).api, s.pc, uid);
    } else if e.Call? {
      CalledBefore(s, e.outcome, uid);
    }
  }

  lemma MarkedStays(s: State, e: Event, uid: nat)
    requires Inv(s) && Marked(s.api, uid)
    ensures Marked(Next(s, e).api, uid)
  {
    NextContinues(s, e);
  }

  lemma {:induction false} PossibleAtFirst(s: State, es: seq<Event>, uid: nat)
    requires Inv(s) && Marked(s.api, uid)
    ensures Marked(Run(s, es).api, uid)
    ensures MayCreate(Run(s, es), uid) ==> MayCreate(s, uid)
    decreases |es|
  {
    if es != [] {
      var before := Run(s, es[..|es| - 1]);
      PossibleAtFirst(s, es[..|es| - 1], uid);
      RunKeeps(s, es[..|es| - 1]);
      MarkedStays(before, es[|es| - 1], uid);
      if MayCreate(Run(s, es), uid) {
        PossibleBefore(before, es[|es| - 1], uid);
      }
    }
  }

  lemma PossibleWhenCreated(s: State, e: Event, uid: nat, k: Key)
    requires Inv(s) && NewLanAt(s.api, Next(s, e).api, uid, k)
    ensures MayCreate(s, uid)
  {
    if Environment(e) {
      EnvironmentChanges(s.api, e);
    } else {
      LanCreatedIff(s, e, uid);
    }
  }

  // ---- the run that creates it ----

  /** Somebody takes the other finalizers off a LAN and deletes it. */
  lemma RemoveLan(s: State, k: Key)
    requires k in s.api.lans && !HasFinalizer(s.api.lans[k].finalizers)
    ensures Run(s, [EditLan(k, {}), DeleteLan(k)]) == State(s.api.(lans := s.api.lans - {k}), s.pc)
  {
    var lan := s.api.lans[k].(finalizers := {});
    var s1 := Next(s, EditLan(k, {}));
    assert s1 == State(s.api.(lans := StoreLan(s.api.lans, k, lan)), s.pc);
    RunOne(s, EditLan(k, {}));
    RunThen(s, [EditLan(k, {})], DeleteLan(k));
    assert [EditLan(k, {})] + [DeleteLan(k)] == [EditLan(k, {}), DeleteLan(k)];
    if lan.deleting {
      assert s.api.lans - {k} - {k} == s.api.lans - {k};
    } else {
      assert s.api.lans[k := lan] - {k} == s.api.lans - {k};
    }
  }

  lemma {:induction false} RemoveLans(s: State, gone: set<Key>) returns (es: seq<Event>)
    requires forall k | k in gone :: k in s.api.lans && !HasFinalizer(s.api.lans[k].finalizers)
    ensures Run(s, es) == State(s.api.(lans := s.api.lans - gone), s.pc)
    decreases |gone|
  {
    if gone == {} {
      es := [];
      assert s.api.lans - gone == s.api.lans;
    } else {
      var k :| k in gone;
      RemoveLan(s, k);
      var s1 := Run(s, [EditLan(k, {}), DeleteLan(k)]);
      var fs := RemoveLans(s1, gone - {k});
      RunConcat(s, [EditLan(k, {}), DeleteLan(k)], fs);
      assert s.api.lans - {k} - (gone - {k}) == s.api.lans - gone;
      es := [EditLan(k, {}), DeleteLan(k)] + fs;
    }
  }

  lemma PassableIsOurs(s: State, j: nat)
    requires Inv(s) && Linking(s.pc) && j < |LinkNames(s.pc.lab)| && Passable(s.api, s.pc.key, s.pc.lab, j)
    ensures OursAt(s.api, s.pc.key, s.pc.lab, j)
  {
    var k := LanKey(s.pc.key, LinkNames(s.pc.lab)[j]);
    assert IsLanOf(s.pc.key, s.api.labs[s.pc.key], k, s.api.lans[k]);
  }

  ghost predicate AboutToCreate(s: State, key: Key, lab: Lab) {
    s.pc.CreateLan? && !s.pc.stored && s.pc.key == key && s.pc.lab == lab
  }

  lemma PassOne(s: State) returns (vni: nat)
    requires Inv(s) && s.pc.GetLan? && |s.pc.used| < |LinkNames(s.pc.lab)| && Passable(s.api, s.pc.key, s.pc.lab, |s.pc.used|)
    ensures Run(s, [Call(Done), Call(Done)]) == State(s.api, Linked(s.pc.key, s.pc.lab, s.pc.vnis, s.pc.used + [vni]))
  {
    LinkNamesDistinct(s.pc.lab);
    PassableIsOurs(s, |s.pc.used|);
    var s1;
    s1, vni := FirstCall(s);
    FindLink(s1);
    RunThen(s, [Call(Done)], Call(Done));
    assert [Call(Done)] + [Call(Done)] == [Call(Done), Call(Done)];
  }

  /** From the look-up of one link to the create for a later one, whose LAN is missing. */
  lemma {:induction false} ReachMissing(s: State, i: nat) returns (es: seq<Event>)
    requires Inv(s) && s.pc.GetLan? && CanMissAt(s.api, s.pc.key, s.pc.lab, |s.pc.used|, i)
    requires LanKey(s.pc.key, LinkNames(s.pc.lab)[i]) !in s.api.lans
    ensures AboutToCreate(Run(s, es), s.pc.key, s.pc.lab)
    decreases i - |s.pc.used|
  {
    LinkNamesDistinct(s.pc.lab);
    if i == |s.pc.used| {
      es := FindMissing(s);
    } else {
      var vni := PassOne(s);
      RunKeeps(s, [Call(Done), Call(Done)]);
      var s1 := Run(s, [Call(Done), Call(Done)]);
      assert s1.pc.GetLan? && |s1.pc.used| == |s.pc.used| + 1;
      var fs := ReachMissing(s1, i);
      RunConcat(s, [Call(Done), Call(Done)], fs);
      es := [Call(Done), Call(Done)] + fs;
    }
  }

  lemma FromLookUp(s: State) returns (es: seq<Event>)
    requires Inv(s) && s.pc.GetLan? && CanMiss(s.api, s.pc.key, s.pc.lab, |s.pc.used|)
    ensures AboutToCreate(Run(s, es), s.pc.key, s.pc.lab)
  {
    var i: nat :| CanMissAt(s.api, s.pc.key, s.pc.lab, |s.pc.used|, i);
    var fs := RemoveThat(s, i);
    RunKeeps(s, fs);
    var gs := ReachMissing(Run(s, fs), i);
    RunConcat(s, fs, gs);
    es := fs + gs;
  }

  /** Somebody removes the LAN that can be missing, if it is there. */
  lemma RemoveThat(s: State, i: nat) returns (es: seq<Event>)
    requires s.pc.GetLan? && CanMissAt(s.api, s.pc.key, s.pc.lab, |s.pc.used|, i)
    ensures Run(s, es).pc == s.pc && CanMissAt(Run(s, es).api, s.pc.key, s.pc.lab, |s.pc.used|, i)
    ensures LanKey(s.pc.key, LinkNames(s.pc.lab)[i]) !in Run(s, es).api.lans
  {
    var k := LanKey(s.pc.key, LinkNames(s.pc.lab)[i]);
    if k in s.api.lans {
      RemoveLan(s, k);
      es := [EditLan(k, {}), DeleteLan(k)];
      StillPassable(s.pc, s.api, Run(s, es).api, i);
    } else {
      es := [];
    }
  }

  lemma StillPassable(pc: Pc, api: Api, api': Api, i: nat)
    requires pc.GetLan? && CanMissAt(api, pc.key, pc.lab, |pc.used|, i)
    requires api'.lans == api.lans - {LanKey(pc.key, LinkNames(pc.lab)[i])}
    ensures CanMissAt(api', pc.key, pc.lab, |pc.used|, i)
  {
    LinkNamesDistinct(pc.lab);
    forall j | |pc.used| <= j < i
      ensures Passable(api', pc.key, pc.lab, j)
    {
      assert Passable(api, pc.key, pc.lab, j);
      if LanKey(pc.key, LinkNames(pc.lab)[j]) == LanKey(pc.key, LinkNames(pc.lab)[i]) {
        LanKeyInjective(pc.key, LinkNames(pc.lab)[j], LinkNames(pc.lab)[i]);
      }
    }
  }

  lemma FromListing(s: State) returns (es: seq<Event>)
    requires Inv(s) && s.pc.ListVnis? && MayCreate(s, s.pc.lab.uid)
    ensures AboutToCreate(Run(s, es), s.pc.key, s.pc.lab)
  {
    LinkNamesDistinct(s.pc.lab);
    var fs := RemoveLans(s, Spare(s.api.lans));
    var s1 := Run(s, fs);
    CanMissAfter(s.api, s1.api, s.pc.key, s.pc.lab);
    ListingSucceeds(s1);
    RunThen(s, fs, Call(Done));
    RunKeeps(s, fs + [Call(Done)]);
    var gs := FromLookUp(Run(s, fs + [Call(Done)]));
    RunConcat(s, fs + [Call(Done)], gs);
    es := fs + [Call(Done)] + gs;
  }

  lemma ListingSucceeds(s: State)
    requires s.pc.ListVnis? && |Free(UsedVnis(s.api.lans))| >= |s.pc.lab.links| > 0
    ensures var s' := Next(s, Call(Done));
            s'.api == s.api && s'.pc.GetLan? && s'.pc.key == s.pc.key && s'.pc.lab == s.pc.lab && s'.pc.used == []
  {
    AllocateExact(UsedVnis(s.api.lans), |s.pc.lab.links|);
    CallIsStep(s, Done);
    assert Next(s, Call(Done)) == State(s.api, ListVnisCall(s.api, s.pc, Done));
  }

  /** With some of the removable LANs gone the first missing one may stand earlier. */
  lemma CanMissAfter(api: Api, api': Api, key: Key, lab: Lab)
    requires CanMiss(api, key, lab, 0) && api'.lans == api.lans - Spare(api.lans)
    ensures CanMiss(api', key, lab, 0)
  {
    var i: nat :| CanMissAt(api, key, lab, 0, i);
    forall j | 0 <= j < i
      ensures CanBeMissing(api', LanKey(key, LinkNames(lab)[j])) || Passable(api', key, lab, j)
    {
      PassableOrMissing(api, api', key, lab, j);
    }
    FirstMissing(api', key, lab, 0, i);
  }

  lemma PassableOrMissing(api: Api, api': Api, key: Key, lab: Lab, j: nat)
    requires j < |LinkNames(lab)| && Passable(api, key, lab, j) && api'.lans == api.lans - Spare(api.lans)
    ensures CanBeMissing(api', LanKey(key, LinkNames(lab)[j])) || Passable(api', key, lab, j)
  {
  }

  lemma {:induction false} FirstMissing(api: Api, key: Key, lab: Lab, from: nat, i: nat)
    requires from <= i < |LinkNames(lab)| && CanBeMissing(api, LanKey(key, LinkNames(lab)[i]))
    requires forall j | from <= j < i :: CanBeMissing(api, LanKey(key, LinkNames(lab)[j])) || Passable(api, key, lab, j)
    ensures CanMiss(api, key, lab, from)
    decreases i - from
  {
    if from == i || CanBeMissing(api, LanKey(key, LinkNames(lab)[from])) {
      assert CanMissAt(api, key, lab, from, from);
    } else {
      FirstMissing(api, key, lab, from + 1, i);
      CanMissEarlier(api, key, lab, from);
    }
  }

  /** The LAN of the current link is there, and the lab's: one call on, the reconcile is at the next link. */
  lemma FindPasses(s: State) returns (s1: State)
    requires Inv(s) && s.pc.PutLan? && s.pc.stored && PassesOn(s.api, s.pc.key, s.pc.lab, |s.pc.used|)
    ensures Run(s, [Call(Done)]) == s1 && s1.pc.GetLan? && s1.pc.key == s.pc.key && s1.pc.lab == s.pc.lab
    ensures CanMiss(s1.api, s.pc.key, s.pc.lab, |s1.pc.used|)
  {
    LinkNamesDistinct(s.pc.lab);
    PassableIsOurs(s, |s.pc.used|);
    FindLink(s);
    RunOne(s, Call(Done));
    s1 := Run(s, [Call(Done)]);
  }

  lemma FindMisses(s: State)
    requires Inv(s) && s.pc.PutLan? && !s.pc.stored
    ensures AboutToCreate(Run(s, [Call(Done)]), s.pc.key, s.pc.lab)
  {
    LinkNamesDistinct(s.pc.lab);
    FindLink(s);
    RunOne(s, Call(Done));
  }

  lemma FromFind(s: State) returns (es: seq<Event>)
    requires Inv(s) && s.pc.PutLan? && MayCreate(s, s.pc.lab.uid)
    ensures AboutToCreate(Run(s, es), s.pc.key, s.pc.lab)
  {
    es := [Call(Done)];
    if s.pc.stored {
      var s1 := FindPasses(s);
      RunKeeps(s, es);
      var fs := FromLookUp(s1);
      RunConcat(s, es, fs);
      es := es + fs;
    } else {
      FindMisses(s);
    }
  }

  lemma ReachCreation(s: State) returns (es: seq<Event>)
    requires Inv(s) && Allocating(s.pc) && MayCreate(s, s.pc.lab.uid)
    ensures AboutToCreate(Run(s, es), s.pc.key, s.pc.lab)
  {
    if s.pc.ListVnis? {
      es := FromListing(s);
    } else if s.pc.GetLan? {
      es := FromLookUp(s);
    } else if s.pc.PutLan? {
      es := FromFind(s);
    } else {
      es := [];
    }
  }

  // ---- the exact condition ----

  /** Some run makes a LAN for the lab. */
  ghost predicate CanGetLan(s: State, uid: nat) {
    exists es, e, k :: NewLanAt(Run(s, es).api, Next(Run(s, es), e).api, uid, k)
  }

  /** Once a lab is marked for deletion it can still get a LAN exactly when a reconcile that began before is at its links and
      some link from the current one on has no LAN or a removable one, with the LANs of the links before it there and the
      lab's; for a reconcile that has yet to list the VNIs, when enough of them can be free besides. */
  lemma MarkedLabGetsLanIff(s: State, uid: nat)
    requires Inv(s) && Marked(s.api, uid)
    ensures CanGetLan(s, uid) <==> MayCreate(s, uid)
  {
    if es, e, k :| NewLanAt(Run(s, es).api, Next(Run(s, es), e).api, uid, k) {
      OnlyWhenPossible(s, es, e, uid, k);
    }
    if MayCreate(s, uid) {
      GetsLan(s, uid);
    }
  }

  lemma OnlyWhenPossible(s: State, es: seq<Event>, e: Event, uid: nat, k: Key)
    requires Inv(s) && Marked(s.api, uid) && NewLanAt(Run(s, es).api, Next(Run(s, es), e).api, uid, k)
    ensures MayCreate(s, uid)
  {
    RunKeeps(s, es);
    PossibleWhenCreated(Run(s, es), e, uid, k);
    PossibleAtFirst(s, es, uid);
  }

  lemma GetsLan(s: State, uid: nat)
    requires Inv(s) && MayCreate(s, uid)
    ensures CanGetLan(s, uid)
  {
    var es := ReachCreation(s);
    RunKeeps(s, es);
    CreatesNext(Run(s, es), s.pc.key, s.pc.lab);
    var k :| NewLanAt(Run(s, es).api, Next(Run(s, es), Call(Done)).api, uid, k);
  }

  lemma CreatesNext(s: State, key: Key, lab: Lab)
    requires Inv(s) && AboutToCreate(s, key, lab)
    ensures exists k :: NewLanAt(s.api, Next(s, Call(Done)).api, lab.uid, k)
  {
    LanCreatedIff(s, Call(Done), lab.uid);
  }
}

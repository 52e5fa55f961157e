/** When EnsureLinks succeeds: exactly which cluster states let an undisturbed reconcile pass all links of a lab. */
module Progress {
  import opened Wrappers
  import opened Text
  import opened Allocator
  import opened Cluster
  import opened ClusterInvariant
  import opened ClusterSteps
  import opened History
  import opened Server
  import opened Effects
  import R = CallSteps
  import T = Teardown

  /** A reconcile in which every call succeeds and nobody else acts. */
  ghost predicate Undisturbed(es: seq<Event>, key: Key) {
    es != [] && es[0] == Start(key) && forall i | 1 <= i < |es| :: es[i] == Call(Done)
  }

  ghost predicate AllDone(es: seq<Event>) { forall i | 0 <= i < |es| :: es[i] == Call(Done) }

  /** The LAN of link number `j`, where it exists, is controlled by the lab. */
  ghost predicate OursAt(api: Api, key: Key, lab: Lab, j: nat)
    requires j < |LinkNames(lab)|
  {
    LanKey(key, LinkNames(lab)[j]) in api.lans ==> api.lans[LanKey(key, LinkNames(lab)[j])].owners == [LabRef(key, lab)]
  }

  /** The same for all links from number `from` on. */
  ghost predicate Ours(api: Api, key: Key, lab: Lab, from: nat) {
    forall j | from <= j < |LinkNames(lab)| :: OursAt(api, key, lab, j)
  }

  // ---- success ----

  lemma RunOne(s: State, e: Event)
    ensures Run(s, [e]) == Next(s, e)
  {
    assert [e][..0] == [];
  }

  lemma RunThen(s: State, es: seq<Event>, e: Event)
    ensures Run(s, es + [e]) == Next(Run(s, es), e)
  {
    assert (es + [e])[..|es|] == es;
  }

  lemma AtCurrentLink(pc: Pc)
    requires pc.GetLan? && |pc.used| < |pc.lab.links| == |pc.vnis|
    ensures R.AtLink(pc, CurrentLink(pc.lab, pc.used), LanKey(pc.key, CurrentLink(pc.lab, pc.used)))
  {
    LinkNamesDistinct(pc.lab);
  }

  /** The LAN in memory after the first call at a link. */
  lemma ReadLink(s: State) returns (vni: nat, lan: Lan)
    requires s.pc.GetLan? && |s.pc.used| < |s.pc.lab.links| == |s.pc.vnis| && OursAt(s.api, s.pc.key, s.pc.lab, |s.pc.used|)
    ensures var pc := s.pc;
            var name := LanKey(pc.key, CurrentLink(pc.lab, pc.used));
            lan.vni == vni && lan.owners == [LabRef(pc.key, pc.lab)]
            && Next(s, Call(Done)) == State(s.api, PutLan(pc.key, pc.lab, pc.vnis, pc.used, lan, name in s.api.lans))
  {
    var pc := s.pc;
    var link := CurrentLink(pc.lab, pc.used);
    var name := LanKey(pc.key, link);
    AtCurrentLink(pc);
    var found := Lookup(s.api.lans, name);
    var start := R.LanInMemory(found, pc.vnis[|pc.used|]);
    var target := start.(spokes := start.spokes + Spokes(start.vni, |pc.lab.links[link]|));
    R.IsComposed(s.api, pc, link, name, found, target);
    LabIsAccepted(pc.key, pc.lab, target.owners);
    R.GetLanNext(s.api, pc, link, name, target, found.Some?, Some([LabRef(pc.key, pc.lab)]));
    lan := target.(owners := [LabRef(pc.key, pc.lab)]);
    vni := lan.vni;
  }

  lemma CreateSucceeds(api: Api, name: Key, lan: Lan) returns (api': Api)
    requires name !in api.lans
    ensures TryCreateLan(api, name, lan, false) == Some(api') && Wrote(api, Done, Some(api'), api', true)
    ensures api'.lans == api.lans[name := lan.(uid := api.nextUid)]
  {
    api' := api.(lans := api.lans[name := lan.(uid := api.nextUid)], nextUid := api.nextUid + 1);
  }

  lemma OursAtStays(api: Api, api': Api, key: Key, lab: Lab, at: nat, j: nat, lan: Lan)
    requires at < j < |LinkNames(lab)| && OursAt(api, key, lab, j) && LinkNames(lab)[at] != LinkNames(lab)[j]
    requires api'.lans == api.lans || api'.lans == api.lans[LanKey(key, LinkNames(lab)[at]) := lan]
    ensures OursAt(api', key, lab, j)
  {
    if LanKey(key, LinkNames(lab)[j]) == LanKey(key, LinkNames(lab)[at]) {
      LanKeyInjective(key, LinkNames(lab)[j], LinkNames(lab)[at]);
    }
  }

  lemma OursStays(api: Api, api': Api, key: Key, lab: Lab, from: nat, lan: Lan)
    requires Ours(api, key, lab, from) && from < |LinkNames(lab)|
    requires api'.lans == api.lans || api'.lans == api.lans[LanKey(key, LinkNames(lab)[from]) := lan]
    ensures Ours(api', key, lab, from + 1)
  {
    LinkNamesDistinct(lab);
    forall j | from < j < |LinkNames(lab)|
      ensures OursAt(api', key, lab, j)
    {
      OursAtStays(api, api', key, lab, from, j, lan);
    }
  }

  ghost predicate AtPut(pc: Pc) {
    && (pc.PutLan? || pc.CreateLan?) && |pc.used| < |pc.lab.links| == |LinkNames(pc.lab)|
    && R.AtLink(pc, CurrentLink(pc.lab, pc.used), LanKey(pc.key, CurrentLink(pc.lab, pc.used)))
  }

  lemma FindLink(s: State)
    requires s.pc.PutLan? && AtPut(s.pc) && OursAt(s.api, s.pc.key, s.pc.lab, |s.pc.used|)
    ensures var pc := s.pc;
            Next(s, Call(Done)) ==
            State(s.api, if LanKey(pc.key, CurrentLink(pc.lab, pc.used)) in s.api.lans
                         then Linked(pc.key, pc.lab, pc.vnis, pc.used + [pc.lan.vni])
                         else CreateLan(pc.key, pc.lab, pc.vnis, pc.used, pc.lan, pc.stored))
  {
    var pc := s.pc;
    var link := CurrentLink(pc.lab, pc.used);
    var name := LanKey(pc.key, link);
    var found := Lookup(s.api.lans, name);
    LabIsAccepted(pc.key, pc.lab, []);
    R.PutLanNext(s.api, pc, link, name, Done, Reply(found));
    R.CallLeads(s.api, pc, Done, s.api, R.AfterFind(pc, Reply(found)));
  }

  lemma CreateLink(s: State) returns (api': Api)
    requires s.pc.CreateLan? && AtPut(s.pc) && !s.pc.stored && Ours(s.api, s.pc.key, s.pc.lab, |s.pc.used|)
    requires LanKey(s.pc.key, CurrentLink(s.pc.lab, s.pc.used)) !in s.api.lans
    ensures Next(s, Call(Done)) == State(api', Linked(s.pc.key, s.pc.lab, s.pc.vnis, s.pc.used + [s.pc.lan.vni]))
    ensures Ours(api', s.pc.key, s.pc.lab, |s.pc.used| + 1)
  {
    var pc := s.pc;
    var link := CurrentLink(pc.lab, pc.used);
    var name := LanKey(pc.key, link);
    api' := CreateSucceeds(s.api, name, pc.lan);
    R.CreateLanNext(s.api, pc, link, name, Done, api', true);
    R.CallLeads(s.api, pc, Done, api', R.LinkDone(pc, true));
    OursStays(s.api, api', pc.key, pc.lab, |pc.used|, pc.lan.(uid := s.api.nextUid));
  }

  /** The calls at a link after the LAN object has been composed. */
  lemma PutLink(s: State) returns (es: seq<Event>)
    requires s.pc.PutLan? && AtPut(s.pc) && Ours(s.api, s.pc.key, s.pc.lab, |s.pc.used|)
    requires s.pc.stored <==> LanKey(s.pc.key, CurrentLink(s.pc.lab, s.pc.used)) in s.api.lans
    ensures AllDone(es) && Run(s, es).pc == Linked(s.pc.key, s.pc.lab, s.pc.vnis, s.pc.used + [s.pc.lan.vni])
    ensures Ours(Run(s, es).api, s.pc.key, s.pc.lab, |s.pc.used| + 1)
  {
    var pc := s.pc;
    FindLink(s);
    RunOne(s, Call(Done));
    es := [Call(Done)];
    if pc.stored {
      OursStays(s.api, s.api, pc.key, pc.lab, |pc.used|, pc.lan);
    } else {
      var api' := CreateLink(State(s.api, CreateLan(pc.key, pc.lab, pc.vnis, pc.used, pc.lan, pc.stored)));
      RunThen(s, es, Call(Done));
      es := es + [Call(Done)];
    }
  }

  /** One link from the first call on. */
  lemma LinkCompletes(s: State) returns (es: seq<Event>, vni: nat)
    requires s.pc.GetLan? && |s.pc.used| < |s.pc.lab.links| == |s.pc.vnis| && Ours(s.api, s.pc.key, s.pc.lab, |s.pc.used|)
    ensures AllDone(es) && Run(s, es).pc == Linked(s.pc.key, s.pc.lab, s.pc.vnis, s.pc.used + [vni])
    ensures Ours(Run(s, es).api, s.pc.key, s.pc.lab, |s.pc.used| + 1)
  {
    var s1;
    s1, vni := FirstCall(s);
    var fs := PutLink(s1);
    RunAfter(s, s1, fs);
    es := [Call(Done)] + fs;
  }

  lemma RunAfter(s: State, s1: State, fs: seq<Event>)
    requires Run(s, [Call(Done)]) == s1 && AllDone(fs)
    ensures Run(s, [Call(Done)] + fs) == Run(s1, fs) && AllDone([Call(Done)] + fs)
  {
    RunConcat(s, [Call(Done)], fs);
  }

  lemma FirstCall(s: State) returns (s1: State, vni: nat)
    requires s.pc.GetLan? && |s.pc.used| < |s.pc.lab.links| == |s.pc.vnis| && OursAt(s.api, s.pc.key, s.pc.lab, |s.pc.used|)
    ensures Run(s, [Call(Done)]) == s1 && s1.api == s.api && s1.pc.PutLan? && AtPut(s1.pc)
    ensures s1.pc.key == s.pc.key && s1.pc.lab == s.pc.lab && s1.pc.vnis == s.pc.vnis && s1.pc.used == s.pc.used && s1.pc.lan.vni == vni
    ensures s1.pc.stored <==> LanKey(s1.pc.key, CurrentLink(s1.pc.lab, s1.pc.used)) in s1.api.lans
  {
    var pc := s.pc;
    var lan;
    vni, lan := ReadLink(s);
    RunOne(s, Call(Done));
    s1 := State(s.api, PutLan(pc.key, pc.lab, pc.vnis, pc.used, lan, LanKey(pc.key, CurrentLink(pc.lab, pc.used)) in s.api.lans));
    IsAtPut(pc, s1.pc);
  }

  lemma IsAtPut(pc: Pc, pc': Pc)
    requires pc.GetLan? && |pc.used| < |pc.lab.links| == |pc.vnis|
    requires pc'.PutLan? && pc'.key == pc.key && pc'.lab == pc.lab && pc'.used == pc.used && pc'.vnis == pc.vnis
    ensures AtPut(pc')
  {
    AtCurrentLink(pc);
    LinkNamesDistinct(pc.lab);
  }

  lemma {:induction false} LinksComplete(s: State, key: Key, lab: Lab, vnis: seq<nat>, used: seq<nat>) returns (es: seq<Event>)
    requires s.pc == Linked(key, lab, vnis, used) && |used| <= |lab.links| == |vnis| && Ours(s.api, key, lab, |used|)
    ensures AllDone(es) && Run(s, es).pc.PickNode? && Run(s, es).pc.lab == lab
    decreases |lab.links| - |used|
  {
    if |used| == |lab.links| {
      es := [];
    } else {
      var fs, vni := LinkCompletes(s);
      var gs := LinksComplete(Run(s, fs), key, lab, vnis, used + [vni]);
      RunConcat(s, fs, gs);
      es := fs + gs;
    }
  }

  lemma OwnedAreOurs(api: Api, key: Key, lab: Lab)
    requires OwnedLans(api) && key in api.labs && api.labs[key] == lab && Available(api, key, lab)
    ensures Ours(api, key, lab, 0)
  {
    LinkNamesDistinct(lab);
    forall j | 0 <= j < |LinkNames(lab)| && LanKey(key, LinkNames(lab)[j]) in api.lans
      ensures api.lans[LanKey(key, LinkNames(lab)[j])].owners == [LabRef(key, lab)]
    {
      assert IsLanOf(key, lab, LanKey(key, LinkNames(lab)[j]), api.lans[LanKey(key, LinkNames(lab)[j])]);
    }
  }

  /** With everything available an undisturbed reconcile passes all links. */
  lemma EnsureCompletes(s: State, key: Key) returns (es: seq<Event>)
    requires Inv(s) && s.pc.Idle? && key in s.api.labs
    requires !s.api.labs[key].deleting && HasFinalizer(s.api.labs[key].finalizers) && Available(s.api, key, s.api.labs[key])
    ensures Undisturbed(es, key) && Run(s, es).pc.PickNode? && Run(s, es).pc.lab == s.api.labs[key]
  {
    var lab := s.api.labs[key];
    RunOne(s, Start(key));
    var s1 := State(s.api, ListVnis(key, lab));
    AllocateExact(UsedVnis(s.api.lans), |lab.links|);
    var vnis := Allocate(UsedVnis(s.api.lans), |lab.links|).value;
    R.ListVnisNext(s.api, s1.pc, Done, Some(vnis));
    R.CallLeads(s.api, s1.pc, Done, s.api, Linked(key, lab, vnis, []));
    RunThen(s, [Start(key)], Call(Done));
    OwnedAreOurs(s.api, key, lab);
    var s2 := State(s.api, Linked(key, lab, vnis, []));
    var fs := LinksComplete(s2, key, lab, vnis, []);
    RunConcat(s, [Start(key), Call(Done)], fs);
    assert [Start(key)] + [Call(Done)] == [Start(key), Call(Done)];
    es := [Start(key), Call(Done)] + fs;
  }

  // ---- and only then ----

  lemma ListedVnis(s: State)
    requires s.pc.ListVnis? && !Next(s, Call(Done)).pc.Idle?
    ensures Linking(Next(s, Call(Done)).pc) || Next(s, Call(Done)).pc.PickNode?
    ensures |Free(UsedVnis(s.api.lans))| >= |s.pc.lab.links|
  {
    AllocateExact(UsedVnis(s.api.lans), |s.pc.lab.links|);
    assert Next(s, Call(Done)) == State(s.api, ListVnisCall(s.api, s.pc, Done));
  }

  lemma ReadGoesOn(s: State)
    requires (s.pc.GetLan? || s.pc.PutLan?) && !Next(s, Call(Done)).pc.Idle?
    ensures Linking(Next(s, Call(Done)).pc) || Next(s, Call(Done)).pc.PickNode?
  {
    if s.pc.GetLan? {
      assert Next(s, Call(Done)) == State(s.api, GetLanCall(s.api, s.pc, Done));
    } else {
      assert Next(s, Call(Done)) == State(s.api, PutLanCall(s.api, s.pc, Done));
    }
  }

  lemma CreateGoesOn(s: State)
    requires s.pc.CreateLan? && !Next(s, Call(Done)).pc.Idle?
    ensures Linking(Next(s, Call(Done)).pc) || Next(s, Call(Done)).pc.PickNode?
  {
    CreateLanIsNext(s, Done);
    CreateCallGoesOn(s.api, s.pc);
  }

  lemma CreateCallGoesOn(api: Api, pc: Pc)
    requires pc.CreateLan? && !CreateLanCall(api, pc, Done).pc.Idle?
    ensures Linking(CreateLanCall(api, pc, Done).pc) || CreateLanCall(api, pc, Done).pc.PickNode?
  {
    assert |pc.used| < |pc.lab.links|;
    assert CreateLanCall(api, pc, Done).pc == Linked(pc.key, pc.lab, pc.vnis, pc.used + [pc.lan.vni]);
  }

  lemma LinkingGoesOn(s: State)
    requires Linking(s.pc) && !Next(s, Call(Done)).pc.Idle?
    ensures Linking(Next(s, Call(Done)).pc) || Next(s, Call(Done)).pc.PickNode?
  {
    if s.pc.CreateLan? {
      CreateGoesOn(s);
    } else {
      ReadGoesOn(s);
    }
  }

  lemma NetworkingGoesOn(s: State)
    requires Networking(s.pc) && !Next(s, Call(Done)).pc.Idle?
    ensures Networking(Next(s, Call(Done)).pc)
  {
    if !s.pc.PickNode? {
      NetworkingCall(s, Done);
    }
  }

  lemma CallContinues(s: State)
    requires !s.pc.AddFinalizer? && !Next(s, Call(Done)).pc.Idle?
    ensures Next(s, Call(Done)).pc.key == s.pc.key && Next(s, Call(Done)).pc.lab == s.pc.lab
  {
    assert Next(s, Call(Done)) == CallStep(s, Done);
  }

  lemma CallStaysEnsuring(s: State)
    requires Ensuring(s.pc) && !Next(s, Call(Done)).pc.Idle?
    ensures Ensuring(Next(s, Call(Done)).pc) && !Next(s, Call(Done)).pc.ListVnis?
    ensures Next(s, Call(Done)).pc.key == s.pc.key && Next(s, Call(Done)).pc.lab == s.pc.lab
    ensures s.pc.ListVnis? ==> |Free(UsedVnis(s.api.lans))| >= |s.pc.lab.links|
  {
    CallContinues(s);
    if s.pc.ListVnis? {
      ListedVnis(s);
    } else if Linking(s.pc) {
      LinkingGoesOn(s);
    } else {
      NetworkingGoesOn(s);
    }
  }

  /** The reconcile has only added LANs since `api`, and when it is past the allocation, enough VNIs were free. */
  ghost predicate Since(api: Api, key: Key, lab: Lab, s: State) {
    && (s.pc.Idle? || (Ensuring(s.pc) && s.pc.key == key && s.pc.lab == lab))
    && (forall k | k in api.lans :: k in s.api.lans && s.api.lans[k] == api.lans[k])
    && (s.pc.ListVnis? ==> s.api == api)
    && (s.pc.Idle? || s.pc.ListVnis? || |Free(UsedVnis(api.lans))| >= |lab.links|)
  }

  lemma SinceStays(api: Api, key: Key, lab: Lab, s: State)
    requires Inv(s) && Since(api, key, lab, s)
    ensures Since(api, key, lab, Next(s, Call(Done)))
  {
    if Ensuring(s.pc) {
      EnsuringOnlyAdds(s, Call(Done));
      if !Next(s, Call(Done)).pc.Idle? {
        CallStaysEnsuring(s);
      }
    }
  }

  lemma {:induction false} UndisturbedSince(s: State, es: seq<Event>, key: Key)
    requires Inv(s) && s.pc.Idle? && key in s.api.labs && Undisturbed(es, key)
    requires !s.api.labs[key].deleting && HasFinalizer(s.api.labs[key].finalizers)
    ensures Since(s.api, key, s.api.labs[key], Run(s, es))
    decreases |es|
  {
    var n := |es| - 1;
    if n == 0 {
      assert es == [Start(key)];
      RunOne(s, Start(key));
    } else {
      UndisturbedSince(s, es[..n], key);
      RunKeeps(s, es[..n]);
      SinceStays(s.api, key, s.api.labs[key], Run(s, es[..n]));
    }
  }

  lemma AvailableWhenPassed(s: State, es: seq<Event>, key: Key)
    requires Inv(s) && s.pc.Idle? && key in s.api.labs && Undisturbed(es, key)
    requires !s.api.labs[key].deleting && HasFinalizer(s.api.labs[key].finalizers) && Run(s, es).pc.PickNode?
    ensures Available(s.api, key, s.api.labs[key])
  {
    UndisturbedSince(s, es, key);
    RunKeeps(s, es);
    PassedAreOwned(s.api, key, s.api.labs[key], Run(s, es));
  }

  lemma PassedAreOwned(api: Api, key: Key, lab: Lab, s: State)
    requires s.pc.PickNode? && NetworkingOk(s.api, s.pc) && Since(api, key, lab, s)
    ensures Available(api, key, lab)
  {
    LinkNamesDistinct(lab);
    forall link | link in lab.links && LanKey(key, link) in api.lans
      ensures OwnedBy(api.lans[LanKey(key, link)].owners, lab.uid)
    {
      assert link in Elems(LinkNames(lab));
      var j :| 0 <= j < |LinkNames(lab)| && LinkNames(lab)[j] == link;
      assert LanKey(key, LinkNames(lab)[j]) in s.api.lans;
    }
  }

  ghost predicate Succeeds(s: State, key: Key) {
    exists es :: Undisturbed(es, key) && Run(s, es).pc.PickNode?
  }

  /** When nothing fails and nobody interferes, EnsureLinks succeeds if and only if enough VNIs are free and no LAN of somebody
      else stands under the name of one of the lab's links. */
  lemma EnsureSucceedsIff(s: State, key: Key)
    requires Inv(s) && s.pc.Idle? && key in s.api.labs
    requires !s.api.labs[key].deleting && HasFinalizer(s.api.labs[key].finalizers)
    ensures Succeeds(s, key) <==> Available(s.api, key, s.api.labs[key])
  {
    if Available(s.api, key, s.api.labs[key]) {
      var es := EnsureCompletes(s, key);
    }
    if es :| Undisturbed(es, key) && Run(s, es).pc.PickNode? {
      AvailableWhenPassed(s, es, key);
    }
  }

  // ---- a lab marked in mid-reconcile ----

  lemma BeginLinks(s: State, key: Key)
    requires s.pc.Idle? && key in s.api.labs && !s.api.labs[key].deleting && HasFinalizer(s.api.labs[key].finalizers)
    requires |Free(UsedVnis(s.api.lans))| >= |s.api.labs[key].links| > 0
    ensures var s' := Run(s, [Start(key), Call(Done)]);
            && s'.api == s.api && s'.pc.GetLan? && s'.pc.key == key && s'.pc.lab == s.api.labs[key]
            && s'.pc.used == [] && |s'.pc.vnis| == |s.api.labs[key].links|
  {
    var lab := s.api.labs[key];
    RunOne(s, Start(key));
    AllocateExact(UsedVnis(s.api.lans), |lab.links|);
    var vnis := Allocate(UsedVnis(s.api.lans), |lab.links|).value;
    R.ListVnisNext(s.api, ListVnis(key, lab), Done, Some(vnis));
    R.CallLeads(s.api, ListVnis(key, lab), Done, s.api, Linked(key, lab, vnis, []));
    RunThen(s, [Start(key)], Call(Done));
    assert [Start(key)] + [Call(Done)] == [Start(key), Call(Done)];
  }

  /** Two calls on, the first link's LAN has been found missing. */
  lemma FindMissing(s: State) returns (es: seq<Event>)
    requires s.pc.GetLan? && |s.pc.used| < |s.pc.lab.links| == |s.pc.vnis|
    requires LanKey(s.pc.key, CurrentLink(s.pc.lab, s.pc.used)) !in s.api.lans
    ensures var s' := Run(s, es); s'.api == s.api && s'.pc.CreateLan? && !s'.pc.stored && s'.pc.key == s.pc.key && s'.pc.lab == s.pc.lab
  {
    var s1, vni := FirstCall(s);
    FindLink(s1);
    RunThen(s, [Call(Done)], Call(Done));
    es := [Call(Done)] + [Call(Done)];
  }

  /** A run to the point between the look-up and the create, from any initial cluster with room for the lab. */
  lemma ReachCreate(s: State, key: Key, links: map<string, seq<Connector>>) returns (es: seq<Event>)
    requires Init(s) && |Free(UsedVnis(s.api.lans))| >= |links| > 0
    requires forall link | link in links :: LanKey(key, link) !in s.api.lans
    ensures var s' := Run(s, es);
            s'.pc.CreateLan? && !s'.pc.stored && s'.pc.key == key && key in s'.api.labs && s'.api.labs[key].links == links
  {
    var came := T.LabComes(s, key, links);
    var s1 := Run(s, came);
    var lab := s1.api.labs[key];
    BeginLinks(s1, key);
    var s2 := Run(s1, [Start(key), Call(Done)]);
    LinkNamesDistinct(lab);
    var found := FindMissing(s2);
    RunConcat(s1, [Start(key), Call(Done)], found);
    RunConcat(s, came, [Start(key), Call(Done)] + found);
    es := came + ([Start(key), Call(Done)] + found);
  }

  /** So the race happens: from any such cluster there is a run in which a lab that has been marked for deletion gets a LAN. */
  lemma DeletionRaceReachable(s: State, key: Key, links: map<string, seq<Connector>>) returns (es: seq<Event>, k: Key)
    requires Init(s) && |Free(UsedVnis(s.api.lans))| >= |links| > 0
    requires forall link | link in links :: LanKey(key, link) !in s.api.lans
    ensures var marked := Run(s, es);
            && key in marked.api.labs && marked.api.labs[key].deleting
            && NewLanAt(marked.api, Next(marked, Call(Done)).api, marked.api.labs[key].uid, k)
  {
    var reach := ReachCreate(s, key, links);
    InitInv(s);
    RunKeeps(s, reach);
    RunThen(s, reach, DeleteLab(key));
    es := reach + [DeleteLab(key)];
    k := RaceAt(Run(s, reach));
  }

  lemma RaceAt(s: State) returns (k: Key)
    requires Inv(s) && s.pc.CreateLan? && !s.pc.stored
    ensures var marked := Next(s, DeleteLab(s.pc.key));
            && s.pc.key in marked.api.labs && marked.api.labs[s.pc.key].deleting
            && NewLanAt(marked.api, Next(marked, Call(Done)).api, marked.api.labs[s.pc.key].uid, k)
  {
    DeletionRace(s);
    MarkKeepsLans(s, s.pc.key);
    MarkKeepsLab(s, s.pc.key);
    k := LanKey(s.pc.key, CurrentLink(s.pc.lab, s.pc.used));
  }

  lemma MarkKeepsLab(s: State, key: Key)
    requires Inv(s) && Ensuring(s.pc) && s.pc.key == key
    ensures var api := Next(s, DeleteLab(key)).api; key in api.labs && api.labs[key].deleting && api.labs[key].uid == s.pc.lab.uid
  {
  }

  lemma MarkKeepsLans(s: State, key: Key)
    ensures Next(s, DeleteLab(key)).api.lans == s.api.lans
  {
  }
}

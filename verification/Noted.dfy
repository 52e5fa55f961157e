/** The VNIs a reconcile notes while it passes the links of a lab differ, in every run, whatever names collide, whoever marks
    the lab and whatever is deleted meanwhile. */
module Noted {
  import opened Cluster
  import opened ClusterInvariant
  import opened ClusterSteps
  import opened History
  import opened Collisions
  import S = Spokes

  /** The VNIs noted differ, and a LAN with one of them stands under the name of its own link. */
  ghost predicate Claims(api: Api, key: Key, lab: Lab, used: seq<nat>) { ClaimsFor(api, key, LinkNames(lab), used) }

  ghost predicate ClaimsFor(api: Api, key: Key, names: seq<string>, used: seq<nat>) {
    && |used| <= |names| && S.Distinct(used)
    && forall j, k | 0 <= j < |used| && k in api.lans && api.lans[k].vni == used[j] :: k == LanKey(key, names[j])
  }

  /** No VNI still to be handed out has been noted. */
  ghost predicate Unclaimed(used: seq<nat>, vnis: seq<nat>) {
    forall i, j | 0 <= i < |used| <= j < |vnis| :: used[i] != vnis[j]
  }

  ghost predicate NotedApart(s: State) {
    Counting(s.pc) ==>
      && Claims(s.api, s.pc.key, s.pc.lab, s.pc.used)
      && (Linking(s.pc) ==> Unclaimed(s.pc.used, s.pc.vnis))
  }

  // ---- steps that note nothing ----

  ghost predicate NoNewLan(a: Api, b: Api) { forall k | k in b.lans :: k in a.lans && b.lans[k].vni == a.lans[k].vni }

  lemma ClaimsStay(a: Api, b: Api, key: Key, lab: Lab, used: seq<nat>)
    requires Claims(a, key, lab, used) && NoNewLan(a, b)
    ensures Claims(b, key, lab, used)
  {
  }

  lemma EffectAddsNoLan(s: State, api: Api)
    requires Effect(s, api) && !CreatesLan(s, api)
    ensures NoNewLan(s.api, api)
  {
  }

  /** Creating a LAN and going on notes its VNI. */
  lemma CreationNotes(s: State, e: Event)
    requires s.pc.CreateLan? && |s.pc.used| < |s.pc.lab.links| && !Environment(e) && Counting(Next(s, e).pc)
    requires Next(s, e).pc.used == s.pc.used
    ensures Next(s, e).api == s.api
  {
    if e.Call? {
      CreateLanIsNext(s, e.outcome);
      CreateLanPassed(s, e.outcome);
    }
  }

  lemma EnvironmentAddsNoLan(a: Api, b: Api)
    requires EnvironmentChange(a, b)
    ensures NoNewLan(a, b)
  {
  }

  lemma SameUsedAddsNoLan(s: State, e: Event)
    requires Uids(s.api) && Counting(s.pc) && Counting(Next(s, e).pc) && Next(s, e).pc.used == s.pc.used
    ensures NoNewLan(s.api, Next(s, e).api)
  {
    if Environment(e) {
      EnvironmentChanges(s.api, e);
      EnvironmentAddsNoLan(s.api, Next(s, e).api);
    } else {
      EffectOfNext(s, e);
      if CreatesLan(s, Next(s, e).api) {
        CreationNotes(s, e);
      } else {
        EffectAddsNoLan(s, Next(s, e).api);
      }
    }
  }

  lemma VnisStay(s: State, e: Event)
    requires Linking(s.pc) && Linking(Next(s, e).pc)
    ensures Next(s, e).pc.vnis == s.pc.vnis
  {
    if e.Call? {
      CallVnis(s, e.outcome);
    }
  }

  lemma CallVnis(s: State, o: Outcome)
    requires Linking(s.pc) && Linking(Next(s, Call(o)).pc)
    ensures Next(s, Call(o)).pc.vnis == s.pc.vnis
  {
    CallIsStep(s, o);
    if s.pc.CreateLan? {
      CreateLanIsStep(s, o);
    } else if s.pc.GetLan? {
      assert CallStep(s, o) == State(s.api, GetLanCall(s.api, s.pc, o));
    } else {
      assert CallStep(s, o) == State(s.api, PutLanCall(s.api, s.pc, o));
    }
  }

  // ---- steps that note a VNI ----

  lemma ClaimsGrow(a: Api, b: Api, key: Key, names: seq<string>, used: seq<nat>, vni: nat)
    requires ClaimsFor(a, key, names, used) && |used| < |names| && vni !in used
    requires var name := LanKey(key, names[|used|]);
             forall k | k in b.lans :: if k == name then b.lans[k].vni == vni
                                       else k in a.lans && b.lans[k].vni == a.lans[k].vni && b.lans[k].vni != vni
    ensures ClaimsFor(b, key, names, used + [vni])
  {
  }

  lemma NotNoted(api: Api, key: Key, lab: Lab, used: seq<nat>, k: Key)
    requires Claims(api, key, lab, used) && |used| < |LinkNames(lab)| && k in api.lans && k == LanKey(key, LinkNames(lab)[|used|])
    ensures api.lans[k].vni !in used
  {
    LinkNamesDistinct(lab);
    if j :| 0 <= j < |used| && used[j] == api.lans[k].vni {
      LanKeyInjective(key, LinkNames(lab)[j], LinkNames(lab)[|used|]);
    }
  }

  lemma FoundNotes(s: State)
    requires Inv(s) && NotedApart(s) && s.pc.PutLan?
    requires LanKey(s.pc.key, CurrentLink(s.pc.lab, s.pc.used)) in s.api.lans
    ensures Claims(s.api, s.pc.key, s.pc.lab, s.pc.used + [s.pc.lan.vni]) && Unclaimed(s.pc.used + [s.pc.lan.vni], s.pc.vnis)
  {
    var pc := s.pc;
    LinkNamesDistinct(pc.lab);
    NotNoted(s.api, pc.key, pc.lab, pc.used, LanKey(pc.key, CurrentLink(pc.lab, pc.used)));
    ClaimsGrow(s.api, s.api, pc.key, LinkNames(pc.lab), pc.used, pc.lan.vni);
  }

  lemma CreatedNotes(s: State, api: Api)
    requires Inv(s) && NotedApart(s) && CreatesLan(s, api)
    ensures Claims(api, s.pc.key, s.pc.lab, s.pc.used + [s.pc.lan.vni]) && Unclaimed(s.pc.used + [s.pc.lan.vni], s.pc.vnis)
  {
    var pc := s.pc;
    LinkNamesDistinct(pc.lab);
    assert pc.lan.vni == pc.vnis[|pc.used|];
    ClaimsGrow(s.api, api, pc.key, LinkNames(pc.lab), pc.used, pc.lan.vni);
  }

  // ---- any run ----

  lemma GrowingStays(s: State, e: Event)
    requires Inv(s) && NotedApart(s) && Linking(s.pc) && Counting(Next(s, e).pc) && |Next(s, e).pc.used| > |s.pc.used|
    ensures NotedApart(Next(s, e))
  {
    LinkPassed(s, e);
    if s.pc.PutLan? {
      FoundNotes(s);
    } else {
      CreatedNotes(s, Next(s, e).api);
    }
    if Linking(Next(s, e).pc) {
      VnisStay(s, e);
    }
  }

  lemma SameStays(s: State, e: Event)
    requires Inv(s) && NotedApart(s) && Counting(s.pc) && Counting(Next(s, e).pc) && Next(s, e).pc.used == s.pc.used
    requires Next(s, e).pc.key == s.pc.key && Next(s, e).pc.lab == s.pc.lab
    ensures NotedApart(Next(s, e))
  {
    SameUsedAddsNoLan(s, e);
    ClaimsStay(s.api, Next(s, e).api, s.pc.key, s.pc.lab, s.pc.used);
    if Linking(Next(s, e).pc) {
      if Networking(s.pc) {
        NetworkingStays(s, e);
      } else {
        VnisStay(s, e);
      }
    }
  }

  lemma NotedStays(s: State, e: Event)
    requires Inv(s) && NotedApart(s)
    ensures NotedApart(Next(s, e))
  {
    if Counting(Next(s, e).pc) && Next(s, e).pc.used != [] {
      UsedOrigin(s, e);
      if Next(s, e).pc.used == s.pc.used {
        SameStays(s, e);
      } else {
        GrowingStays(s, e);
      }
    }
  }

  /** In every state of every run the VNIs noted so far differ. */
  lemma {:induction false} RunNoted(s: State, es: seq<Event>)
    requires Inv(s) && NotedApart(s)
    ensures NotedApart(Run(s, es))
    decreases |es|
  {
    if es != [] {
      RunNoted(s, es[..|es| - 1]);
      RunKeeps(s, es[..|es| - 1]);
      NotedStays(Run(s, es[..|es| - 1]), es[|es| - 1]);
    }
  }

  lemma IdleNoted(s: State)
    requires s.pc.Idle?
    ensures NotedApart(s)
  {
    assert !Counting(s.pc);
  }
}

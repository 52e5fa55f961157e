/** Deleting a lab: when it completes, when it never can, and whose LANs it reaches. */
module Teardown {
  import opened Wrappers
  import opened Text
  import opened Cluster
  import opened ClusterInvariant
  import opened ClusterSteps
  import opened History
  import opened Collisions
  import S = Spokes

  // ---- building runs ----

  lemma RunStep(s: State, es: seq<Event>, e: Event)
    ensures Run(s, es + [e]) == Next(Run(s, es), e)
  {
    assert (es + [e])[..|es|] == es;
  }

  lemma FreeStep(s: State, es: seq<Event>, e: Event)
    requires CollisionFree(s, es) && !Collides(Next(Run(s, es), e).api)
    ensures CollisionFree(s, es + [e])
  {
    RunStep(s, es, e);
    assert (es + [e])[..|es|] == es;
  }

  // ---- a missing LAN blocks the deletion for ever ----

  /** The lab is being deleted, carries the finalizer, and one of its links has no LAN. */
  ghost predicate Blocked(s: State, key: Key, uid: nat, link: string) {
    && key in s.api.labs && s.api.labs[key].uid == uid && s.api.labs[key].deleting
    && HasFinalizer(s.api.labs[key].finalizers)
    && link in s.api.labs[key].links && LanKey(key, link) !in s.api.lans
  }

  /** No reconcile is under way that could still create the LAN or has passed the link already. */
  ghost predicate NotPast(pc: Pc, key: Key, link: string) {
    pc.Idle? || pc.key != key || pc.AddFinalizer? || ((pc.PickLink? || pc.UpdateLan?) && link in pc.todo)
  }

  lemma EffectKeepsBlocked(s: State, api: Api, key: Key, uid: nat, link: string)
    requires PcInv(s.api, s.pc) && Effect(s, api) && !Collides(s.api)
    requires Blocked(s, key, uid, link) && NotPast(s.pc, key, link)
    ensures Blocked(State(api, s.pc), key, uid, link)
  {
    if CreatesLan(s, api) {
      LinkNamesDistinct(s.pc.lab);
      assert CurrentLink(s.pc.lab, s.pc.used) in s.api.labs[s.pc.key].links;
    }
  }

  lemma BlockedStays(s: State, e: Event, key: Key, uid: nat, link: string)
    requires Inv(s) && !Collides(s.api) && Blocked(s, key, uid, link) && NotPast(s.pc, key, link)
    ensures Blocked(Next(s, e), key, uid, link)
  {
    if Environment(e) {
      EnvironmentChanges(s.api, e);
    } else {
      EffectOfNext(s, e);
      EffectKeepsBlocked(s, Next(s, e).api, key, uid, link);
    }
  }

  lemma CallNotPast(s: State, o: Outcome, key: Key, uid: nat, link: string)
    requires PcInv(s.api, s.pc) && Blocked(s, key, uid, link) && NotPast(s.pc, key, link)
    ensures NotPast(CallStep(s, o).pc, key, link)
  {
    if s.pc.AddFinalizer? && s.pc.key == key {
      assert TryUpdateLab(s.api, key, s.pc.lab, s.pc.lab.finalizers + {FinalizerName}).None?;
    } else if s.pc.UpdateLan? && s.pc.key == key && s.pc.link == link {
      assert CallStep(s, o) == State(s.api, Idle);
    } else if s.pc.UpdateLan? && s.pc.key == key {
      assert link in s.pc.todo - {s.pc.link};
      assert CallStep(s, o) == UpdateLanCall(s.api, s.pc, o);
    }
  }

  lemma NotPastStays(s: State, e: Event, key: Key, uid: nat, link: string)
    requires Inv(s) && Blocked(s, key, uid, link) && NotPast(s.pc, key, link)
    ensures NotPast(Next(s, e).pc, key, link)
  {
    if e.Call? {
      CallNotPast(s, e.outcome, key, uid, link);
    }
  }

  /** A lab one of whose LANs is gone is never released: looking the LAN up finds nothing, and the update that
      follows all the same fails. */
  lemma {:induction false} BlockedForEver(s: State, es: seq<Event>, key: Key, uid: nat, link: string)
    requires Inv(s) && CollisionFree(s, es) && Blocked(s, key, uid, link) && NotPast(s.pc, key, link)
    ensures Blocked(Run(s, es), key, uid, link) && NotPast(Run(s, es).pc, key, link)
    decreases |es|
  {
    if es != [] {
      var before := Run(s, es[..|es| - 1]);
      BlockedForEver(s, es[..|es| - 1], key, uid, link);
      RunKeeps(s, es[..|es| - 1]);
      BlockedStays(before, es[|es| - 1], key, uid, link);
      NotPastStays(before, es[|es| - 1], key, uid, link);
    }
  }

  // ---- with all LANs there, one undisturbed reconcile completes it ----

  /** The lab no longer holds itself back. */
  ghost predicate Released(api: Api, key: Key, uid: nat) {
    !(key in api.labs && api.labs[key].uid == uid && HasFinalizer(api.labs[key].finalizers))
  }

  lemma CollidesLess(a: Api, b: Api)
    requires !Collides(a) && forall key | key in b.labs :: key in a.labs && a.labs[key].links == b.labs[key].links
    ensures !Collides(b)
  {
  }

  lemma StripOne(s: State, link: string)
    requires s.pc.PickLink? && link in s.pc.todo && LanKey(s.pc.key, link) in s.api.lans
    ensures var s' := Next(Next(s, ForLink(link, Done)), Call(Done));
            && s'.pc == NextLink(s.pc.key, s.pc.lab, s.pc.todo - {link})
            && s'.api.labs == s.api.labs
            && forall k | k in s.api.lans && k != LanKey(s.pc.key, link) :: k in s'.api.lans
  {
    var k := LanKey(s.pc.key, link);
    var mid := Next(s, ForLink(link, Done));
    assert mid == State(s.api, UpdateLan(s.pc.key, s.pc.lab, s.pc.todo, link, Some(s.api.lans[k])));
    assert Next(mid, Call(Done)) == UpdateLanCall(mid.api, mid.pc, Done);
  }

  lemma DropLast(s: State)
    requires s.pc.DropFinalizer? && s.pc.key in s.api.labs && s.api.labs[s.pc.key] == s.pc.lab
    ensures var s' := Next(s, Call(Done));
            && Released(s'.api, s.pc.key, s.pc.lab.uid)
            && forall key | key in s'.api.labs :: key in s.api.labs && s.api.labs[key].links == s'.api.labs[key].links
  {
    assert Next(s, Call(Done)) == DropFinalizerCall(s.api, s.pc, Done);
  }

  /** The calls of an undisturbed tear-down that reaches the links in this order: look up and write back each LAN, then write
      the lab. */
  function TearDownCalls(order: seq<string>): seq<Event> {
    if order == [] then [Call(Done)]
    else [ForLink(order[0], Done)] + ([Call(Done)] + TearDownCalls(order[1..]))
  }

  lemma RunHead(es: seq<Event>, e: Event, rest: seq<Event>)
    ensures es + ([e] + rest) == (es + [e]) + rest
  {
  }

  /** With all LANs there an undisturbed tear-down releases the lab, in whatever order the map yields the links. */
  lemma {:induction false} TeardownCompletes(s: State, es: seq<Event>, key: Key, lab: Lab, order: seq<string>)
    requires CollisionFree(s, es) && S.Distinct(order)
    requires var m := Run(s, es); m.pc == NextLink(key, lab, Elems(order)) && key in m.api.labs && m.api.labs[key] == lab
    requires forall link | link in order :: LanKey(key, link) in Run(s, es).api.lans
    ensures CollisionFree(s, es + TearDownCalls(order)) && Released(Run(s, es + TearDownCalls(order)).api, key, lab.uid)
    decreases |order|
  {
    var m := Run(s, es);
    if order == [] {
      DropLast(m);
      CollidesLess(m.api, Next(m, Call(Done)).api);
      FreeStep(s, es, Call(Done));
      RunStep(s, es, Call(Done));
    } else {
      var link, rest := order[0], order[1..];
      var read := es + [ForLink(link, Done)];
      StripFirst(s, es, key, lab, order);
      TeardownCompletes(s, read + [Call(Done)], key, lab, rest);
      RunHead(es, ForLink(link, Done), [Call(Done)] + TearDownCalls(rest));
      RunHead(read, Call(Done), TearDownCalls(rest));
    }
  }

  lemma StripFirst(s: State, es: seq<Event>, key: Key, lab: Lab, order: seq<string>)
    requires CollisionFree(s, es) && S.Distinct(order) && order != []
    requires var m := Run(s, es); m.pc == NextLink(key, lab, Elems(order)) && key in m.api.labs && m.api.labs[key] == lab
    requires forall link | link in order :: LanKey(key, link) in Run(s, es).api.lans
    ensures var next := es + [ForLink(order[0], Done)] + [Call(Done)];
            && CollisionFree(s, next) && S.Distinct(order[1..])
            && Run(s, next).pc == NextLink(key, lab, Elems(order[1..]))
            && key in Run(s, next).api.labs && Run(s, next).api.labs[key] == lab
            && forall link | link in order[1..] :: LanKey(key, link) in Run(s, next).api.lans
  {
    var m, link := Run(s, es), order[0];
    assert link in Elems(order);
    StripOne(m, link);
    var read := es + [ForLink(link, Done)];
    RunStep(s, es, ForLink(link, Done));
    FreeStep(s, es, ForLink(link, Done));
    var m2 := Next(Run(s, read), Call(Done));
    CollidesLess(m.api, m2.api);
    FreeStep(s, read, Call(Done));
    RunStep(s, read, Call(Done));
    OthersLeft(order);
    forall other | other in order[1..]
      ensures LanKey(key, other) in m2.api.lans
    {
      if LanKey(key, other) == LanKey(key, link) {
        LanKeyInjective(key, other, link);
      }
    }
  }

  lemma OthersLeft(order: seq<string>)
    requires S.Distinct(order) && order != []
    ensures S.Distinct(order[1..]) && order[0] !in order[1..] && Elems(order) - {order[0]} == Elems(order[1..])
  {
    assert order == [order[0]] + order[1..];
  }

  /** One reconcile in which every call succeeds and nobody else acts releases a lab that is being deleted and has all its
      LANs, whatever the order of its links. */
  lemma UndisturbedTeardown(s: State, key: Key, order: seq<string>)
    requires s.pc.Idle? && !Collides(s.api)
    requires key in s.api.labs && s.api.labs[key].deleting && HasFinalizer(s.api.labs[key].finalizers)
    requires S.Distinct(order) && Elems(order) == s.api.labs[key].links.Keys
    requires forall link | link in s.api.labs[key].links :: LanKey(key, link) in s.api.lans
    ensures CollisionFree(s, [Start(key)] + TearDownCalls(order))
    ensures Released(Run(s, [Start(key)] + TearDownCalls(order)).api, key, s.api.labs[key].uid)
  {
    var lab := s.api.labs[key];
    RunStep(s, [], Start(key));
    FreeStep(s, [], Start(key));
    assert [] + [Start(key)] == [Start(key)];
    assert Run(s, [Start(key)]) == State(s.api, NextLink(key, lab, lab.links.Keys));
    forall link | link in order
      ensures LanKey(key, link) in s.api.lans
    {
      assert link in Elems(order);
    }
    TeardownCompletes(s, [Start(key)], key, lab, order);
  }

  lemma ReleasedWhenComplete(s: State, key: Key) returns (fs: seq<Event>)
    requires s.pc.Idle? && !Collides(s.api)
    requires key in s.api.labs && s.api.labs[key].deleting && HasFinalizer(s.api.labs[key].finalizers)
    requires forall link | link in s.api.labs[key].links :: LanKey(key, link) in s.api.lans
    ensures CollisionFree(s, fs) && Released(Run(s, fs).api, key, s.api.labs[key].uid)
  {
    var order := Sorted(s.api.labs[key].links.Keys);
    AscendingDistinct(order);
    UndisturbedTeardown(s, key, order);
    fs := [Start(key)] + TearDownCalls(order);
  }

  ghost predicate CanBeReleased(s: State, key: Key, uid: nat) {
    exists es :: CollisionFree(s, es) && Released(Run(s, es).api, key, uid)
  }

  lemma NotReleasedWhenBlocked(s: State, key: Key, link: string)
    requires Inv(s) && s.pc.Idle? && key in s.api.labs && Blocked(s, key, s.api.labs[key].uid, link)
    ensures !CanBeReleased(s, key, s.api.labs[key].uid)
  {
    var uid := s.api.labs[key].uid;
    forall es | CollisionFree(s, es)
      ensures !Released(Run(s, es).api, key, uid)
    {
      BlockedForEver(s, es, key, uid, link);
    }
  }

  /** A lab marked for deletion can still be released exactly when every one of its links has its LAN. */
  lemma DeletionCompletesIff(s: State, key: Key)
    requires Inv(s) && s.pc.Idle? && !Collides(s.api)
    requires key in s.api.labs && s.api.labs[key].deleting && HasFinalizer(s.api.labs[key].finalizers)
    ensures CanBeReleased(s, key, s.api.labs[key].uid) <==>
            forall link | link in s.api.labs[key].links :: LanKey(key, link) in s.api.lans
  {
    if link :| link in s.api.labs[key].links && LanKey(key, link) !in s.api.lans {
      NotReleasedWhenBlocked(s, key, link);
    } else {
      var es := ReleasedWhenComplete(s, key);
    }
  }

  // ---- whose LANs a teardown reaches ----

  /** Tearing down one link: look its LAN up, take the finalizer off. */
  ghost function TearDownLink(s: State, link: string): State
    requires s.pc.PickLink? && link in s.pc.todo
  {
    Next(Next(s, ForLink(link, Done)), Call(Done))
  }

  ghost predicate TouchesForeign(a: Api, b: Api, uid: nat) {
    exists k :: k in a.lans && !OwnedBy(a.lans[k].owners, uid) && (k !in b.lans || b.lans[k] != a.lans[k])
  }

  lemma TearDownLinkIs(s: State, link: string)
    requires s.pc.PickLink? && link in s.pc.todo
    ensures var k := LanKey(s.pc.key, link);
            TearDownLink(s, link).api ==
            if k !in s.api.lans then s.api
            else s.api.(lans := StoreLan(s.api.lans, k, s.api.lans[k].(finalizers := s.api.lans[k].finalizers - {FinalizerName})))
  {
    var mid := Next(s, ForLink(link, Done));
    var k := LanKey(s.pc.key, link);
    assert mid == State(s.api, UpdateLan(s.pc.key, s.pc.lab, s.pc.todo, link, if k in s.api.lans then Some(s.api.lans[k]) else None));
    assert Next(mid, Call(Done)) == UpdateLanCall(mid.api, mid.pc, Done);
  }

  /** deleteExternalResources does not ask who owns a LAN. It changes a LAN of somebody else exactly when the name
      of the link leads to a LAN that carries the finalizer and is not owned by this lab. */
  lemma TeardownTouchesForeignIff(s: State, link: string)
    requires s.pc.PickLink? && link in s.pc.todo
    requires forall k | k in s.api.lans && s.api.lans[k].deleting :: s.api.lans[k].finalizers != {}
    ensures TouchesForeign(s.api, TearDownLink(s, link).api, s.pc.lab.uid) <==>
            var k := LanKey(s.pc.key, link);
            k in s.api.lans && HasFinalizer(s.api.lans[k].finalizers) && !OwnedBy(s.api.lans[k].owners, s.pc.lab.uid)
  {
    TearDownLinkIs(s, link);
    var k, api := LanKey(s.pc.key, link), TearDownLink(s, link).api;
    if k in s.api.lans && HasFinalizer(s.api.lans[k].finalizers) {
      assert k in api.lans ==> FinalizerName !in api.lans[k].finalizers;
    } else if k in s.api.lans {
      assert s.api.lans[k].finalizers - {FinalizerName} == s.api.lans[k].finalizers;
    }
  }

  lemma LabComes(s: State, b: Key, links: map<string, seq<Connector>>) returns (es: seq<Event>)
    requires s.pc.Idle? && b !in s.api.labs
    ensures Run(s, es) == State(s.api.(labs := s.api.labs[b := Lab(s.api.nextUid, {FinalizerName}, false, links, map[])],
                                       nextUid := s.api.nextUid + 1), Idle)
  {
    var lab := Lab(s.api.nextUid, {}, false, links, map[]);
    var api1 := s.api.(labs := s.api.labs[b := lab], nextUid := s.api.nextUid + 1);
    es := [] + [NewLab(b, links, map[])];
    RunStep(s, [], NewLab(b, links, map[]));
    RunStep(s, es, Start(b));
    es := es + [Start(b)];
    assert Run(s, es) == State(api1, AddFinalizer(b, lab));
    RunStep(s, es, Call(Done));
    es := es + [Call(Done)];
    MarkedLab(api1, b, lab);
    RunStep(s, es, Stop);
    es := es + [Stop];
    assert api1.labs[b := lab.(finalizers := {FinalizerName})] == s.api.labs[b := lab.(finalizers := {FinalizerName})];
  }

  /** A lab is created, picked up by the controller, and deleted. */
  lemma LabComesAndIsMarked(s: State, b: Key, links: map<string, seq<Connector>>) returns (es: seq<Event>)
    requires s.pc.Idle? && b !in s.api.labs
    ensures Run(s, es) == State(s.api.(labs := s.api.labs[b := Lab(s.api.nextUid, {FinalizerName}, true, links, map[])],
                                       nextUid := s.api.nextUid + 1), Idle)
  {
    es := LabComes(s, b, links);
    var lab := Lab(s.api.nextUid, {FinalizerName}, false, links, map[]);
    RunStep(s, es, DeleteLab(b));
    es := es + [DeleteLab(b)];
    assert s.api.labs[b := lab][b := lab.(deleting := true)] == s.api.labs[b := lab.(deleting := true)];
  }

  lemma MarkedLab(api: Api, b: Key, lab: Lab)
    requires b in api.labs && api.labs[b] == lab && lab.finalizers == {} && !lab.deleting
    ensures AddFinalizerCall(api, AddFinalizer(b, lab), Done) ==
            State(api.(labs := api.labs[b := lab.(finalizers := {FinalizerName})]), ListVnis(b, lab.(finalizers := {FinalizerName})))
  {
    assert {} + {FinalizerName} == {FinalizerName};
  }

  /** A lab that is created, picked up and deleted before its links were made is never released: from any initial cluster
      there is such a run. */
  lemma EarlyDeletionBlocks(s: State, b: Key, links: map<string, seq<Connector>>, link: string) returns (es: seq<Event>)
    requires Init(s) && link in links && LanKey(b, link) !in s.api.lans
    ensures var m := Run(s, es);
            b in m.api.labs && m.api.labs[b].deleting && m.api.labs[b].links == links && !CanBeReleased(m, b, m.api.labs[b].uid)
  {
    es := LabComesAndIsMarked(s, b, links);
    InitInv(s);
    RunKeeps(s, es);
    NotReleasedWhenBlocked(Run(s, es), b, link);
  }

  /** What name collisions cost: whenever a lab that is not being deleted has a LAN nothing else holds, creating and
      deleting a lab with a link of the same LAN name lets that LAN be removed. */
  lemma CollidingLabLosesLan(s: State, a: Key, k: Key, b: Key, link: string, connectors: seq<Connector>) returns (es: seq<Event>)
    requires Inv(s) && s.pc.Idle? && Held(s.api, k, a) && s.api.lans[k].finalizers == {FinalizerName}
    requires b !in s.api.labs && LanKey(b, link) == k
    ensures k !in Run(s, es).api.lans && LiveLab(Run(s, es).api, a, s.api.labs[a].uid)
  {
    es := LabComesAndIsMarked(s, b, map[link := connectors]);
    var s1 := Run(s, es);
    RunStep(s, es, Start(b));
    es := es + [Start(b)];
    var s2 := Next(s1, Start(b));
    assert s2.api == s1.api && s2.pc == NextLink(b, s1.api.labs[b], s1.api.labs[b].links.Keys);
    assert link in s1.api.labs[b].links.Keys;
    TearDownLinkIs(s2, link);
    RunStep(s, es, ForLink(link, Done));
    es := es + [ForLink(link, Done)];
    RunStep(s, es, Call(Done));
    es := es + [Call(Done)];
    var s3 := TearDownLink(s2, link);
    assert Run(s, es) == s3;
    RunStep(s, es, DeleteLan(k));
    es := es + [DeleteLan(k)];
    StrippedLanIsRemoved(s2.api, s3.api, k);
    assert s3.api.labs == s1.api.labs && Run(s, es).api.labs == s3.api.labs;
  }

  lemma StrippedLanIsRemoved(a: Api, b: Api, k: Key)
    requires k in a.lans && a.lans[k].finalizers == {FinalizerName}
    requires b == a.(lans := StoreLan(a.lans, k, a.lans[k].(finalizers := a.lans[k].finalizers - {FinalizerName})))
    ensures k !in EnvironmentStep(b, DeleteLan(k)).lans
  {
    assert {FinalizerName} - {FinalizerName} == {};
  }
}

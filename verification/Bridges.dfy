/** The bridges of a node in the cluster: when the controller passes a node, every bridge it planned stands and is the lab's,
    and the machines find the fabric networks they refer to. */
module Bridges {
  import opened Wrappers
  import opened Names
  import opened Allocator
  import opened Cluster
  import opened ClusterSteps
  import opened History
  import opened Sysinfo

  /** The bridge is stored and owned by the lab with this UID. */
  ghost predicate Stands(api: Api, k: Key, uid: nat) { k in api.nads && OwnedBy(api.nads[k].owners, uid) }

  // ---- one step ----

  /** The controller passes a bridge of its plan only when that bridge stands, found or created. */
  lemma BridgePassedIsOwned(s: State, o: Outcome)
    requires (s.pc.PutNad? || s.pc.CreateNad?) && s.pc.plan != []
    requires var pc := CallStep(s, o).pc; !pc.Idle? && !pc.CreateNad?
    ensures CallStep(s, o).pc == Bridged(s.pc.key, s.pc.lab, s.pc.used, s.pc.nodes, s.pc.plan[1..])
    ensures Stands(CallStep(s, o).api, s.pc.plan[0].key, s.pc.lab.uid)
  {
    NetworkingCall(s, o);
    assert [LabRef(s.pc.key, s.pc.lab)][0].uid == s.pc.lab.uid;
  }

  lemma EffectKeepsBridge(s: State, api: Api, k: Key, uid: nat)
    requires Effect(s, api) && Stands(s.api, k, uid)
    ensures Stands(api, k, uid)
  {
  }

  /** A bridge stays until it is deleted; nobody changes its owners. */
  lemma BridgeStays(s: State, e: Event, k: Key, uid: nat)
    requires Stands(s.api, k, uid) && e != DeleteNad(k)
    ensures Stands(Next(s, e).api, k, uid)
  {
    if !Environment(e) {
      EffectOfNext(s, e);
      EffectKeepsBridge(s, Next(s, e).api, k, uid);
    }
  }

  lemma {:induction false} BridgeStaysLong(s: State, es: seq<Event>, k: Key, uid: nat)
    requires Stands(s.api, k, uid) && DeleteNad(k) !in es
    ensures Stands(Run(s, es).api, k, uid)
    decreases |es|
  {
    if es != [] {
      var n := |es| - 1;
      BridgeStaysLong(s, es[..n], k, uid);
      BridgeStays(Run(s, es[..n]), es[n], k, uid);
    }
  }

  /** The bridge stands, unless it was deleted in the history from `a` to `b`. */
  ghost predicate StandsUnlessDeleted(api: Api, k: Key, uid: nat, a: seq<Event>, b: seq<Event>) {
    Stands(api, k, uid) || (a <= b && DeleteNad(k) in b[|a|..])
  }

  lemma StandsLater(start: State, a: seq<Event>, b: seq<Event>, s: State, t: State, k: Key, uid: nat)
    requires a <= b && Run(start, a) == s && Run(start, b) == t && Stands(s.api, k, uid)
    ensures StandsUnlessDeleted(t.api, k, uid, a, b)
  {
    var es := b[|a|..];
    assert b == a + es;
    RunConcat(start, a, es);
    if DeleteNad(k) !in es {
      BridgeStaysLong(s, es, k, uid);
    }
  }

  // ---- a node ----

  /** Calls of the controller, and actions of others that delete none of the bridges in `keys`. */
  ghost predicate Undeleted(es: seq<Event>, keys: set<Key>) {
    forall i | 0 <= i < |es| :: es[i].Call? || (Environment(es[i]) && (es[i].DeleteNad? ==> es[i].key !in keys))
  }

  ghost function Keys(plan: seq<Bridge>): set<Key> { set b | b in plan :: b.key }

  /** The first i bridges of the plan stand, and the controller is at the next one, past all of them, or has given up. */
  ghost predicate PassedTo(s: State, key: Key, lab: Lab, used: seq<nat>, rest: set<string>, plan: seq<Bridge>, i: nat)
    requires i <= |plan|
  {
    && (forall j | 0 <= j < i :: Stands(s.api, plan[j].key, lab.uid))
    && (s.pc.Idle?
        || s.pc == Bridged(key, lab, used, rest, plan[i..])
        || (i < |plan| && s.pc == CreateNad(key, lab, used, rest, plan[i..])))
  }

  lemma PassedToStays(s: State, e: Event, key: Key, lab: Lab, used: seq<nat>, rest: set<string>, plan: seq<Bridge>, i: nat)
    returns (j: nat)
    requires i <= |plan| && PassedTo(s, key, lab, used, rest, plan, i) && Undeleted([e], Keys(plan))
    ensures j <= |plan| && PassedTo(Next(s, e), key, lab, used, rest, plan, j)
  {
    j := i;
    assert [e][0] == e;
    forall b | b in plan && Stands(s.api, b.key, lab.uid)
      ensures Stands(Next(s, e).api, b.key, lab.uid)
    {
      assert b.key in Keys(plan);
      BridgeStays(s, e, b.key, lab.uid);
    }
    if e.Call? && (s.pc.PutNad? || s.pc.CreateNad?) && !Next(s, e).pc.Idle? {
      assert plan[i..][1..] == plan[i + 1..];
      if Next(s, e).pc.CreateNad? {
        NetworkingCall(s, e.outcome);
        CreateNadNext(s, e.outcome);
      } else {
        BridgePassedIsOwned(s, e.outcome);
        j := i + 1;
      }
    }
  }

  /** A call that leads to the creation of a bridge comes from the look at the same bridge. */
  lemma CreateNadNext(s: State, o: Outcome)
    requires (s.pc.PutNad? || s.pc.CreateNad?) && CallStep(s, o).pc.CreateNad?
    ensures s.pc.PutNad? && CallStep(s, o).pc == CreateNad(s.pc.key, s.pc.lab, s.pc.used, s.pc.nodes, s.pc.plan)
  {
    NetworkingCall(s, o);
  }

  lemma {:induction false} BridgesPassed(s: State, es: seq<Event>, key: Key, lab: Lab, used: seq<nat>, rest: set<string>, plan: seq<Bridge>)
    returns (i: nat)
    requires s.pc == Bridged(key, lab, used, rest, plan) && Undeleted(es, Keys(plan))
    ensures i <= |plan| && PassedTo(Run(s, es), key, lab, used, rest, plan, i)
    decreases |es|
  {
    if es == [] {
      i := 0;
      assert plan[0..] == plan;
    } else {
      var n := |es| - 1;
      i := BridgesPassed(s, es[..n], key, lab, used, rest, plan);
      assert [es[n]][0] == es[n];
      i := PassedToStays(Run(s, es[..n]), es[n], key, lab, used, rest, plan, i);
    }
  }

  /** When the controller comes to the next node, all bridges planned for this one stand and are the lab's. */
  lemma PlanStands(s: State, es: seq<Event>, key: Key, lab: Lab, used: seq<nat>, rest: set<string>, plan: seq<Bridge>)
    requires s.pc == Bridged(key, lab, used, rest, plan) && Undeleted(es, Keys(plan)) && Run(s, es).pc.PickNode?
    ensures forall b | b in plan :: Stands(Run(s, es).api, b.key, lab.uid)
  {
    var i := BridgesPassed(s, es, key, lab, used, rest, plan);
  }

  // ---- the networks of a node's machines ----

  ghost function FabricKey(lab: Key, node: string): Key { Key(lab.ns, FabricName(lab.name, node)) }

  ghost function DataFabricKey(lab: Key, node: string): Key { Key(lab.ns, DataFabricName(lab.name, node)) }

  /** From a state in which the controller picks `node`, it allocates indexes and goes on through `es` to the next pick. */
  ghost predicate PassesNode(s: State, node: string, es: seq<Event>) {
    && s.pc.PickNode? && node in s.pc.nodes && node in s.pc.lab.nodes && s.pc.lab.nodes[node].Router?
    && !Next(s, ForNode(node, Done)).pc.Idle?
    && Undeleted(es, {FabricKey(s.pc.key, node), DataFabricKey(s.pc.key, node)})
    && Run(Next(s, ForNode(node, Done)), es).pc.PickNode?
  }

  /** The state when the controller has passed the node. */
  ghost function Passed(s: State, node: string, es: seq<Event>): State { Run(Next(s, ForNode(node, Done)), es) }

  /** The plan the controller makes for a node. */
  lemma PlanOf(s: State, node: string, model: string) returns (plan: seq<Bridge>)
    requires s.pc.PickNode? && node in s.pc.nodes && node in s.pc.lab.nodes && s.pc.lab.nodes[node] == Router(model)
    requires !Next(s, ForNode(node, Done)).pc.Idle?
    ensures Next(s, ForNode(node, Done)) == State(s.api, Bridged(s.pc.key, s.pc.lab, s.pc.used, s.pc.nodes - {node}, plan))
    ensures forall name :: IsPlanned(s.pc.key, node, model, name) <==> Key(s.pc.key.ns, name) in Keys(plan)
    ensures Keys(plan) <= {FabricKey(s.pc.key, node), DataFabricKey(s.pc.key, node)}
  {
    AllocateExact(UsedIndexes(s.api.nads), BridgeCount(node));
    var indexes := Allocate(UsedIndexes(s.api.nads), BridgeCount(node)).value;
    plan := BridgePlan(s.pc.key, node, model, indexes);
    PlanKeys(s.pc.key, node, model, indexes);
  }

  lemma PlanKeys(lab: Key, node: string, model: string, indexes: seq<nat>)
    requires |indexes| == BridgeCount(node)
    ensures var keys := Keys(BridgePlan(lab, node, model, indexes));
            && keys == (if IsIntegrated(model) then {}
                        else if VmTypeOf(node) == MAGC then {FabricKey(lab, node), DataFabricKey(lab, node)}
                        else {FabricKey(lab, node)})
            && forall name :: IsPlanned(lab, node, model, name) <==> Key(lab.ns, name) in keys
  {
    var plan := BridgePlan(lab, node, model, indexes);
    PlannedWhenDistributed(lab, node, model);
    if !IsIntegrated(model) {
      assert plan[0] in plan && plan[0].key == FabricKey(lab, node);
      if VmTypeOf(node) == MAGC {
        assert plan[1] in plan && plan[1].key == DataFabricKey(lab, node);
      }
    }
  }

  /** Every bridge planned for a node stands and is the lab's when the controller has passed the node. */
  lemma PlannedStands(s: State, node: string, model: string, es: seq<Event>, name: string)
    requires PassesNode(s, node, es) && s.pc.lab.nodes[node].model == model && IsPlanned(s.pc.key, node, model, name)
    ensures Stands(Passed(s, node, es).api, Key(s.pc.key.ns, name), s.pc.lab.uid)
  {
    var plan := PlanOf(s, node, model);
    PlanStands(Next(s, ForNode(node, Done)), es, s.pc.key, s.pc.lab, s.pc.used, s.pc.nodes - {node}, plan);
  }

  // ---- what is not planned is not made ----

  lemma EffectAddsPlanned(s: State, api: Api, k: Key)
    requires Effect(s, api) && k !in s.api.nads && k in api.nads
    ensures s.pc.CreateNad? && s.pc.plan != [] && k == s.pc.plan[0].key
  {
  }

  lemma {:induction false} UnplannedStaysAbsent(s: State, es: seq<Event>, key: Key, lab: Lab, used: seq<nat>, rest: set<string>,
                                                plan: seq<Bridge>, k: Key)
    requires s.pc == Bridged(key, lab, used, rest, plan) && Undeleted(es, Keys(plan)) && k !in Keys(plan) && k !in s.api.nads
    ensures k !in Run(s, es).api.nads
    decreases |es|
  {
    if es != [] {
      var n := |es| - 1;
      UnplannedStaysAbsent(s, es[..n], key, lab, used, rest, plan, k);
      var mid := Run(s, es[..n]);
      var i := BridgesPassed(s, es[..n], key, lab, used, rest, plan);
      if !Environment(es[n]) {
        EffectOfNext(mid, es[n]);
        if k in Next(mid, es[n]).api.nads {
          EffectAddsPlanned(mid, Next(mid, es[n]).api, k);
          assert plan[i] in plan;
        }
      }
    }
  }

  /** For a node whose networks did not exist before: they all stand, and are the lab's, when the controller has passed the
      node, exactly when the chassis has separate cards or the machine refers to none. */
  lemma NetworksStandIff(s: State, node: string, model: string, es: seq<Event>, slot: string, sysinfo: string)
    requires PassesNode(s, node, es) && s.pc.lab.nodes[node].model == model
    requires forall name | name in FabricNetworks(s.pc.key.name, node, slot, sysinfo) :: Key(s.pc.key.ns, name) !in s.api.nads
    ensures (forall name | name in FabricNetworks(s.pc.key.name, node, slot, sysinfo) ::
               Stands(Passed(s, node, es).api, Key(s.pc.key.ns, name), s.pc.lab.uid))
            <==> !IsIntegrated(model) || (!RefersToFabric(node, sysinfo) && !RefersToDataFabric(node, slot))
  {
    var networks := FabricNetworks(s.pc.key.name, node, slot, sysinfo);
    NetworksPlannedIff(s.pc.key, node, slot, sysinfo, model);
    forall name | name in networks
      ensures Stands(Passed(s, node, es).api, Key(s.pc.key.ns, name), s.pc.lab.uid) <==> IsPlanned(s.pc.key, node, model, name)
    {
      if IsPlanned(s.pc.key, node, model, name) {
        PlannedStands(s, node, model, es, name);
      } else {
        var plan := PlanOf(s, node, model);
        UnplannedStaysAbsent(Next(s, ForNode(node, Done)), es, s.pc.key, s.pc.lab, s.pc.used, s.pc.nodes - {node}, plan,
                             Key(s.pc.key.ns, name));
      }
    }
  }

  /** With the generated sysinfo every network a card's machine refers to stands and is the lab's, except when the card is a
      line card of a MAG-c whose model counts as integrated. */
  lemma GeneratedNetworksStand(s: State, node: string, model: string, es: seq<Event>, slot: string, nodeType: string,
                               sfm: Option<string>, card: string, mdas: Option<seq<string>>, xioms: string)
    requires PassesNode(s, node, es) && s.pc.lab.nodes[node].model == model
    requires !(IsIntegrated(model) && VmTypeOf(node) == MAGC && !IsCPM(slot))
    ensures var sysinfo := DefaultSysinfo(nodeType, model, sfm, slot, card, mdas, xioms);
            forall name | name in FabricNetworks(s.pc.key.name, node, slot, sysinfo) ::
              Stands(Passed(s, node, es).api, Key(s.pc.key.ns, name), s.pc.lab.uid)
  {
    GeneratedSysinfoAgrees(s.pc.key, node, slot, nodeType, model, sfm, card, mdas, xioms);
    var sysinfo := DefaultSysinfo(nodeType, model, sfm, slot, card, mdas, xioms);
    forall name | name in FabricNetworks(s.pc.key.name, node, slot, sysinfo)
      ensures Stands(Passed(s, node, es).api, Key(s.pc.key.ns, name), s.pc.lab.uid)
    {
      PlannedStands(s, node, model, es, name);
    }
  }
}

/** Where each call of the controller takes the cluster state machine, by the controller's position. */
module CallSteps {
  import opened Wrappers
  import opened Text
  import opened Allocator
  import opened Cluster
  import opened Server

  /** A call with outcome o leaves `now` stored and takes the controller from pc to pc'. */
  ghost predicate Calls(before: Api, pc: Pc, o: Outcome, now: Api, pc': Pc) {
    CallStep(State(before, pc), o) == State(now, pc')
  }

  lemma GoesOn(a: Log, b: Log, c: Log)
    requires WentOn(a, b) && WentOn(b, c)
    ensures WentOn(a, c)
  {
    forall i | |a.trace| <= i < |c.trace|
      ensures !c.trace[i].Start? && !c.trace[i].Stop?
    {
      assert i < |b.trace| ==> c.trace[i] == b.trace[i];
    }
  }

  lemma ReadsGoOn(a: Log, b: Log)
    requires a.calls <= b.calls && Interfered(a.trace, b.trace)
    ensures WentOn(a, b)
  {
  }

  lemma RecordedGoesOn(a: Log, b: Log, c: Log, e: Event)
    requires a.calls <= b.calls <= c.calls && Interfered(a.trace, b.trace) && !e.Start? && !e.Stop? && c.trace == b.trace + [e]
    ensures WentOn(a, c)
  {
  }

  /** Event e leaves `now` stored and takes the controller from pc to pc'. */
  ghost predicate Leads(before: Api, pc: Pc, e: Event, now: Api, pc': Pc) {
    Next(State(before, pc), e) == State(now, pc')
  }

  lemma CallLeads(before: Api, pc: Pc, o: Outcome, now: Api, pc': Pc)
    requires Calls(before, pc, o, now, pc')
    ensures Leads(before, pc, Call(o), now, pc')
  {
  }

  lemma WroteWritten(before: Api, o: Outcome, after: Option<Api>, now: Api, ok: bool, pc: Pc)
    requires Wrote(before, o, after, now, ok)
    ensures Written(before, o, after, pc) == State(now, if ok then pc else Idle)
  {
  }

  // ---- links ----

  ghost predicate AtLink(pc: Pc, link: string, name: Key) {
    && (pc.GetLan? || pc.PutLan? || pc.CreateLan?)
    && |pc.used| < |pc.lab.links| && |pc.used| < |pc.vnis|
    && link == CurrentLink(pc.lab, pc.used) && link in pc.lab.links && name == LanKey(pc.key, link)
  }

  ghost function AfterSetOwner(pc: Pc, target: Lan, stored: bool, owners: Option<seq<Owner>>): Pc
    requires pc.GetLan?
  {
    if owners.None? then Idle
    else PutLan(pc.key, pc.lab, pc.vnis, pc.used, target.(owners := owners.value), stored)
  }

  lemma GetLanNext(api: Api, pc: Pc, link: string, name: Key, target: Lan, stored: bool, owners: Option<seq<Owner>>)
    requires pc.GetLan? && AtLink(pc, link, name)
    requires LocalLan(api, pc.key, pc.lab, link, pc.vnis[|pc.used|]) ==
             if owners.None? then None else Some((target.(owners := owners.value), stored))
    ensures Calls(api, pc, Done, api, AfterSetOwner(pc, target, stored, owners))
  {
  }

  /** The reconcile goes on to the next link when this one's LAN is the lab's. */
  ghost function LinkDone(pc: Pc, ok: bool): Pc
    requires pc.PutLan? || pc.CreateLan?
  {
    if ok then Linked(pc.key, pc.lab, pc.vnis, pc.used + [pc.lan.vni]) else Idle
  }

  ghost function AfterFind(pc: Pc, reply: Reply<Option<Lan>>): Pc
    requires pc.PutLan?
  {
    if reply.Reply? && reply.value.None?
    then CreateLan(pc.key, pc.lab, pc.vnis, pc.used, pc.lan, pc.stored)
    else LinkDone(pc, reply.Reply? && OwnedBy(reply.value.value.owners, pc.lab.uid))
  }

  lemma PutLanNext(api: Api, pc: Pc, link: string, name: Key, o: Outcome, reply: Reply<Option<Lan>>)
    requires pc.PutLan? && AtLink(pc, link, name)
    requires reply == if o.Done? then Reply(Lookup(api.lans, name)) else Error
    ensures Calls(api, pc, o, api, AfterFind(pc, reply))
  {
    assert PutLanCall(api, pc, o) == AfterFind(pc, reply);
    IsPutLan(api, pc, o);
  }

  lemma IsPutLan(api: Api, pc: Pc, o: Outcome)
    requires pc.PutLan?
    ensures CallStep(State(api, pc), o) == State(api, PutLanCall(api, pc, o))
  {
    assert !pc.AddFinalizer? && !pc.ListVnis? && !pc.GetLan?;
  }

  lemma CreateLanNext(before: Api, pc: Pc, link: string, name: Key, o: Outcome, now: Api, ok: bool)
    requires pc.CreateLan? && AtLink(pc, link, name)
    requires Wrote(before, o, TryCreateLan(before, name, pc.lan, pc.stored), now, ok)
    ensures Calls(before, pc, o, now, LinkDone(pc, ok))
  {
    WroteWritten(before, o, TryCreateLan(before, name, pc.lan, pc.stored), now, ok, LinkDone(pc, true));
    assert CreateLanCall(before, pc, o) == Written(before, o, TryCreateLan(before, name, pc.lan, pc.stored), LinkDone(pc, true));
    IsCreateLan(before, pc, o);
  }

  lemma IsCreateLan(api: Api, pc: Pc, o: Outcome)
    requires pc.CreateLan?
    ensures CallStep(State(api, pc), o) == CreateLanCall(api, pc, o)
  {
    assert !pc.AddFinalizer? && !pc.ListVnis? && !pc.GetLan? && !pc.PutLan?;
  }

  /** `target`, with the lab set as its controller, is the LAN the link is to have. */
  ghost predicate Composed(api: Api, pc: Pc, link: string, target: Lan, stored: bool)
    requires pc.GetLan? && |pc.used| < |pc.vnis| && link in pc.lab.links
  {
    var owners := SetController(target.owners, LabRef(pc.key, pc.lab));
    LocalLan(api, pc.key, pc.lab, link, pc.vnis[|pc.used|]) ==
    if owners.None? then None else Some((target.(owners := owners.value), stored))
  }

  lemma GetLanFails(api: Api, pc: Pc, o: Outcome)
    requires pc.GetLan? && !o.Done?
    ensures Calls(api, pc, o, api, Idle)
  {
  }

  /** The LAN object EnsureLinks starts from: the stored one, or a new one. */
  function LanInMemory(found: Option<Lan>, vni: nat): Lan {
    if found.Some? then found.value else Lan(0, [], vni, [], {FinalizerName}, false)
  }

  lemma IsComposed(api: Api, pc: Pc, link: string, name: Key, found: Option<Lan>, target: Lan)
    requires pc.GetLan? && AtLink(pc, link, name) && found == Lookup(api.lans, name)
    requires var lan := LanInMemory(found, pc.vnis[|pc.used|]);
             target == lan.(spokes := lan.spokes + Spokes(lan.vni, |pc.lab.links[link]|))
    ensures Composed(api, pc, link, target, found.Some?)
  {
  }

  lemma ListVnisNext(api: Api, pc: Pc, o: Outcome, vnis: Option<seq<nat>>)
    requires pc.ListVnis?
    requires vnis == if o.Done? then Allocate(UsedVnis(api.lans), |pc.lab.links|) else None
    ensures Calls(api, pc, o, api, if vnis.Some? then Linked(pc.key, pc.lab, vnis.value, []) else Idle)
    ensures vnis.Some? ==> |vnis.value| == |pc.lab.links|
  {
    AllocateExact(UsedVnis(api.lans), |pc.lab.links|);
  }

  lemma LinkedIsGetLan(key: Key, lab: Lab, vnis: seq<nat>, used: seq<nat>, names: seq<string>)
    requires |used| < |lab.links| == |vnis| && names == LinkNames(lab)
    ensures var pc := Linked(key, lab, vnis, used);
            && |names| == |vnis|
            && pc == GetLan(key, lab, vnis, used) && AtLink(pc, names[|used|], LanKey(key, names[|used|]))
  {
    assert names[|used|] in names;
  }

  lemma NamesAreLinks(lab: Lab)
    ensures |LinkNames(lab)| == |lab.links| && forall n | n in LinkNames(lab) :: n in lab.links
  {
    assert |lab.links.Keys| == |lab.links|;
    forall n | n in LinkNames(lab)
      ensures n in lab.links
    {
      assert n in Elems(LinkNames(lab));
    }
  }

  // ---- bridges ----

  ghost predicate AtBridge(pc: Pc, name: Key, index: nat) {
    (pc.PutNad? || pc.CreateNad?) && pc.plan != [] && pc.plan[0] == Bridge(name, index)
  }

  ghost function BridgeDone(pc: Pc, ok: bool): Pc
    requires (pc.PutNad? || pc.CreateNad?) && pc.plan != []
  {
    if ok then Bridged(pc.key, pc.lab, pc.used, pc.nodes, pc.plan[1..]) else Idle
  }

  ghost function AfterFindNad(pc: Pc, reply: Reply<Option<Nad>>): Pc
    requires pc.PutNad? && pc.plan != []
  {
    if reply.Reply? && reply.value.None? then CreateNad(pc.key, pc.lab, pc.used, pc.nodes, pc.plan)
    else BridgeDone(pc, reply.Reply? && OwnedBy(reply.value.value.owners, pc.lab.uid))
  }

  lemma PutNadNext(api: Api, pc: Pc, name: Key, index: nat, o: Outcome, reply: Reply<Option<Nad>>)
    requires pc.PutNad? && AtBridge(pc, name, index)
    requires reply == if o.Done? then Reply(Lookup(api.nads, name)) else Error
    ensures Calls(api, pc, o, api, AfterFindNad(pc, reply))
  {
  }

  lemma NewNadNext(before: Api, pc: Pc, name: Key, index: nat, o: Outcome, now: Api, ok: bool)
    requires pc.CreateNad? && AtBridge(pc, name, index)
    requires Wrote(before, o, TryCreateNad(before, name, NewNad(pc.key, pc.lab, index)), now, ok)
    ensures Calls(before, pc, o, now, BridgeDone(pc, ok))
  {
    WroteWritten(before, o, TryCreateNad(before, name, NewNad(pc.key, pc.lab, index)), now, ok, BridgeDone(pc, true));
  }

  ghost function AfterIndexes(pc: Pc, node: string, model: string, indexes: Option<seq<nat>>): Pc
    requires pc.PickNode? && (indexes.Some? ==> |indexes.value| == BridgeCount(node))
  {
    if indexes.None? then Idle
    else Bridged(pc.key, pc.lab, pc.used, pc.nodes - {node}, BridgePlan(pc.key, node, model, indexes.value))
  }

  lemma OtherNodeNext(api: Api, pc: Pc, node: string)
    requires pc.PickNode? && node in pc.nodes && node in pc.lab.nodes && pc.lab.nodes[node].OtherNode?
    ensures Leads(api, pc, ForNode(node, Done), api, PickNode(pc.key, pc.lab, pc.used, pc.nodes - {node}))
  {
  }

  lemma RouterNext(api: Api, pc: Pc, node: string, model: string, o: Outcome, indexes: Option<seq<nat>>)
    requires pc.PickNode? && node in pc.nodes && node in pc.lab.nodes && pc.lab.nodes[node] == Router(model)
    requires indexes == if o.Done? && !BadLabel(api.nads) then Allocate(UsedIndexes(api.nads), BridgeCount(node)) else None
    ensures indexes.Some? ==> |indexes.value| == BridgeCount(node)
    ensures Leads(api, pc, ForNode(node, o), api, AfterIndexes(pc, node, model, indexes))
  {
    AllocateExact(UsedIndexes(api.nads), BridgeCount(node));
  }

  lemma DeletedSince(a: seq<Event>, b: seq<Event>, c: seq<Event>, e: Event)
    requires a <= b <= c
    ensures e in c[|b|..] ==> e in c[|a|..]
  {
    assert c[|b|..] == c[|a|..][|b| - |a|..];
  }

  // ---- tear-down and finalizers ----

  lemma LookUpNext(api: Api, pc: Pc, link: string, name: Key, o: Outcome, reply: Reply<Option<Lan>>)
    requires pc.PickLink? && link in pc.todo && name == LanKey(pc.key, link)
    requires reply == if o.Done? then Reply(Lookup(api.lans, name)) else Error
    ensures Leads(api, pc, ForLink(link, o), api,
                  if reply.Error? then Idle else UpdateLan(pc.key, pc.lab, pc.todo, link, reply.value))
  {
  }

  lemma UpdateLanNext(before: Api, pc: Pc, name: Key, o: Outcome, now: Api, ok: bool)
    requires pc.UpdateLan? && name == LanKey(pc.key, pc.link)
    requires Wrote(before, o,
                   if pc.found.Some? then TryUpdateLan(before, name, pc.found.value, pc.found.value.finalizers - {FinalizerName})
                   else None,
                   now, ok)
    ensures Calls(before, pc, o, now, if ok then NextLink(pc.key, pc.lab, pc.todo - {pc.link}) else Idle)
  {
    if pc.found.Some? {
      WroteWritten(before, o, TryUpdateLan(before, name, pc.found.value, pc.found.value.finalizers - {FinalizerName}),
                   now, ok, NextLink(pc.key, pc.lab, pc.todo - {pc.link}));
    }
  }

  lemma FinalizerNext(before: Api, pc: Pc, o: Outcome, now: Api, ok: bool, finalizers: set<string>)
    requires pc.AddFinalizer? || pc.DropFinalizer?
    requires finalizers == if pc.AddFinalizer? then pc.lab.finalizers + {FinalizerName} else pc.lab.finalizers - {FinalizerName}
    requires Wrote(before, o, TryUpdateLab(before, pc.key, pc.lab, finalizers), now, ok)
    ensures Calls(before, pc, o, now,
                  if ok && pc.AddFinalizer? then ListVnis(pc.key, pc.lab.(finalizers := finalizers)) else Idle)
  {
    WroteWritten(before, o, TryUpdateLab(before, pc.key, pc.lab, finalizers), now, ok,
                 if pc.AddFinalizer? then ListVnis(pc.key, pc.lab.(finalizers := finalizers)) else Idle);
  }
}
